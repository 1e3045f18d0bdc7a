/**
 * The authentication middleware (backend/middleware/auth.js): reading the
 * bearer token from the Authorization header, `protect`, `authorize`,
 * `optionalAuth` and `checkOwnership`.
 *
 * `jwt.verify` is an oracle from a token to the user id it was signed for
 * (None when the signature or expiry check throws); `User.findById` is a
 * lookup in the map of accounts.
 */
module Auth {
  import opened Wrappers
  import opened Text
  import opened ProductModel
  import opened Store

  /** What a middleware does with a request: pass it on, or answer it. */
  datatype Gate = Next | Reject(code: nat, message: string)

  /**
   * The token `protect` and `optionalAuth` accept: the second space-separated
   * field of a header that starts with "Bearer", when it is non-empty (an
   * absent or empty token is falsy).
   */
  function TokenOf(header: Option<string>): (token: Option<string>)
    ensures token.Some? ==> header.Some? && StartsWith(header.value, "Bearer")
    ensures token.Some? ==> token.value != "" && ' ' !in token.value
    ensures token.Some? ==> |Split(header.value, ' ')| > 1 && token.value == Split(header.value, ' ')[1]
    ensures (header.Some? && StartsWith(header.value, "Bearer") && |Split(header.value, ' ')| > 1
             && Split(header.value, ' ')[1] != "") ==> token == Some(Split(header.value, ' ')[1])
  {
    if header.None? || header.value == "" || !StartsWith(header.value, "Bearer") then None
    else
      var fields := Split(header.value, ' ');
      SplitFieldsHaveNoSeparator(header.value, ' ');
      if |fields| > 1 && fields[1] != "" then Some(fields[1]) else None
  }

  /** The header a client builds, `Bearer <token>`, gives its token back. */
  lemma TokenOfBearerHeader(t: string)
    requires t != "" && ' ' !in t
    ensures TokenOf(Some("Bearer " + t)) == Some(t)
  {
    var h := "Bearer " + t;
    assert h == "Bearer" + [' '] + t;
    SplitAtFirstSeparator("Bearer", t, ' ');
    SplitWithoutSeparator(t, ' ');
    assert Split(h, ' ') == ["Bearer", t];
    assert h[..6] == "Bearer";
  }

  /** A header that does not start with "Bearer" never yields a token. */
  lemma NoTokenWithoutBearer(header: string)
    requires !StartsWith(header, "Bearer")
    ensures TokenOf(Some(header)).None?
  {
  }

  /** `roles.includes(user.role)`. */
  function Authorize(roles: seq<Role>, user: User): (g: Gate)
    ensures g == Next <==> user.role in roles
    ensures g != Next ==> g.code == 403
  {
    if user.role in roles then Next
    else Reject(403, "User role " + RoleName(user.role) + " is not authorized to access this route")
  }

  function RoleName(r: Role): string
  {
    match r
    case UserRole => "user"
    case AdminRole => "admin"
  }

  /** A stored document with its possible owner fields. */
  datatype Owned = Owned(user: Option<UserId>, createdBy: Option<UserId>)

  /** `resource.user ? 'user' : 'createdBy'`: the field that names the owner. */
  function OwnerOf(r: Owned): (owner: Option<UserId>)
    ensures r.user.Some? ==> owner == r.user
    ensures r.user.None? ==> owner == r.createdBy
  {
    if r.user.Some? then r.user else r.createdBy
  }

  /**
   * The decision of `checkOwnership`: 404 for a missing resource; with no
   * authenticated user or no owner field the property access throws and is
   * answered 500; an admin passes; anyone else passes only as the owner.
   */
  function OwnershipDecision(resource: Option<Owned>, caller: Option<User>): (g: Gate)
  {
    if resource.None? then Reject(404, "Resource not found")
    else if caller.None? then Reject(500, "Server error")
    else if caller.value.role == AdminRole then Next
    else
      var owner := OwnerOf(resource.value);
      if owner.None? then Reject(500, "Server error")
      else if owner.value != caller.value.id then Reject(403, "Not authorized to access this resource")
      else Next
  }

  /**
   * An existing resource is open to an admin whoever owns it; to anyone else
   * exactly when they are the owner, where `user` takes precedence over `createdBy`.
   */
  lemma OwnershipDecisionContract(resource: Option<Owned>, caller: Option<User>)
    ensures resource.None? ==> OwnershipDecision(resource, caller) == Reject(404, "Resource not found")
    ensures resource.Some? && caller.Some? && caller.value.role == AdminRole ==>
      OwnershipDecision(resource, caller) == Next
    ensures resource.Some? && caller.Some? && caller.value.role != AdminRole ==>
      (OwnershipDecision(resource, caller) == Next <==> OwnerOf(resource.value) == Some(caller.value.id))
    ensures OwnershipDecision(resource, caller) == Next ==> resource.Some? && caller.Some?
  {
  }

  /** The request as the middleware sees it: its header, and what the middleware attaches to it. */
  class Request {
    var authorization: Option<string>
    var user: Option<User>
    var resource: Option<Owned>

    constructor(authorization: Option<string>)
      ensures this.authorization == authorization && user.None? && resource.None?
    {
      this.authorization := authorization;
      user := None;
      resource := None;
    }
  }

  /**
   * `protect`: 401 when there is no token, when verification fails, or when
   * the token's user no longer exists; otherwise `req.user` is that user and
   * the request goes on.
   */
  method Protect(req: Request, verify: string -> Option<UserId>, users: map<UserId, User>) returns (g: Gate)
    modifies req
    ensures req.authorization == old(req.authorization) && req.resource == old(req.resource)
    ensures TokenOf(req.authorization).None? ==>
      g == Reject(401, "Not authorized to access this route") && req.user == old(req.user)
    ensures TokenOf(req.authorization).Some? && verify(TokenOf(req.authorization).value).None? ==>
      g == Reject(401, "Not authorized to access this route") && req.user == old(req.user)
    ensures TokenOf(req.authorization).Some? && verify(TokenOf(req.authorization).value).Some? ==>
      var id := verify(TokenOf(req.authorization).value).value;
      && (id !in users ==> g == Reject(401, "User not found") && req.user == old(req.user))
      && (id in users ==> g == Next && req.user == Some(users[id]))
  {
    var token := TokenOf(req.authorization);
    if token.None? {
      return Reject(401, "Not authorized to access this route");
    }
    var decoded := verify(token.value);
    if decoded.None? {
      return Reject(401, "Not authorized to access this route");
    }
    if decoded.value !in users {
      return Reject(401, "User not found");
    }
    req.user := Some(users[decoded.value]);
    g := Next;
  }

  /**
   * `optionalAuth`: never rejects; `req.user` is the token's user when the
   * token verifies and the user exists, and null otherwise.
   */
  method OptionalAuth(req: Request, verify: string -> Option<UserId>, users: map<UserId, User>) returns (g: Gate)
    modifies req
    ensures g == Next
    ensures req.authorization == old(req.authorization) && req.resource == old(req.resource)
    ensures req.user.Some? <==>
      TokenOf(req.authorization).Some? && verify(TokenOf(req.authorization).value).Some?
      && verify(TokenOf(req.authorization).value).value in users
    ensures req.user.Some? ==> req.user == Some(users[verify(TokenOf(req.authorization).value).value])
  {
    var token := TokenOf(req.authorization);
    if token.Some? {
      var decoded := verify(token.value);
      if decoded.Some? && decoded.value in users {
        req.user := Some(users[decoded.value]);
      } else {
        req.user := None;
      }
    } else {
      req.user := None;
    }
    g := Next;
  }

  /** `checkOwnership`: the decision above; on success the resource is attached to the request. */
  method CheckOwnership(req: Request, resource: Option<Owned>) returns (g: Gate)
    modifies req
    ensures g == OwnershipDecision(resource, old(req.user))
    ensures g == Next ==> req.resource == resource
    ensures g != Next ==> req.resource == old(req.resource)
    ensures req.user == old(req.user) && req.authorization == old(req.authorization)
  {
    g := OwnershipDecision(resource, req.user);
    if g == Next {
      req.resource := resource;
    }
  }
}
