/**
 * The auth slice (src/store/slices/authSlice.ts): who is signed in, the token
 * sent with each request, and the copy of the token the browser keeps in
 * `localStorage` across reloads. The browser's copy is a field here, so that
 * the reducers' writes to it are part of the state they change.
 */
module AuthSlice {
  import opened Wrappers

  datatype ClientRole = UserRole | AdminRole

  datatype AuthUser = AuthUser(id: string, firstName: string, lastName: string, email: string,
                               role: ClientRole, avatar: Option<string>)

  /** A `Partial<User>`: a field is None when the patch does not mention it. */
  datatype UserPatch = UserPatch(id: Option<string>, firstName: Option<string>, lastName: Option<string>,
                                 email: Option<string>, role: Option<ClientRole>, avatar: Option<string>)

  const EmptyPatch := UserPatch(None, None, None, None, None, None)

  function Or<T>(patched: Option<T>, current: T): T
  {
    if patched.Some? then patched.value else current
  }

  /** `{ ...user, ...patch }`. */
  function Merge(u: AuthUser, p: UserPatch): AuthUser
  {
    AuthUser(Or(p.id, u.id), Or(p.firstName, u.firstName), Or(p.lastName, u.lastName),
             Or(p.email, u.email), Or(p.role, u.role), if p.avatar.Some? then p.avatar else u.avatar)
  }

  /** Two patches applied in turn: the later one wins field by field. */
  function Then(p: UserPatch, q: UserPatch): UserPatch
  {
    UserPatch(if q.id.Some? then q.id else p.id,
              if q.firstName.Some? then q.firstName else p.firstName,
              if q.lastName.Some? then q.lastName else p.lastName,
              if q.email.Some? then q.email else p.email,
              if q.role.Some? then q.role else p.role,
              if q.avatar.Some? then q.avatar else p.avatar)
  }

  /**
   * Spreading a patch: an empty patch changes nothing, a patch applied twice
   * is applied once, and two patches in turn are their combination; the
   * fields a patch names take the patch's values and the others keep theirs.
   */
  lemma MergeLaws(u: AuthUser, p: UserPatch, q: UserPatch)
    ensures Merge(u, EmptyPatch) == u
    ensures Merge(Merge(u, p), p) == Merge(u, p)
    ensures Merge(Merge(u, p), q) == Merge(u, Then(p, q))
    ensures p.role.Some? ==> Merge(u, p).role == p.role.value
    ensures p.role.None? ==> Merge(u, p).role == u.role
    ensures p.email.Some? ==> Merge(u, p).email == p.email.value
    ensures p.email.None? ==> Merge(u, p).email == u.email
  {
  }

  /** The auth state, with the browser's stored token beside it. */
  class AuthState {
    var user: Option<AuthUser>
    var token: Option<string>
    var isAuthenticated: bool
    var isLoading: bool
    var error: Option<string>
    /** `localStorage.getItem('token')`. */
    var storedToken: Option<string>

    /** A token held in memory is always the one the browser has stored. */
    ghost predicate Valid()
      reads this
    {
      token.Some? ==> storedToken == token
    }

    /** The initial state reads the stored token and trusts no one until the profile loads. */
    constructor(stored: Option<string>)
      ensures Valid()
      ensures token == stored && storedToken == stored
      ensures user == None && !isAuthenticated && !isLoading && error == None
    {
      user := None;
      token := stored;
      isAuthenticated := false;
      isLoading := false;
      error := None;
      storedToken := stored;
    }

    method LoginStart()
      requires Valid()
      modifies this
      ensures Valid()
      ensures isLoading && error == None
      ensures user == old(user) && token == old(token) && isAuthenticated == old(isAuthenticated)
      ensures storedToken == old(storedToken)
    {
      isLoading := true;
      error := None;
    }

    /** Signed in: the user and the token are kept, and the token is stored for later visits. */
    method LoginSuccess(u: AuthUser, t: string)
      modifies this
      ensures Valid()
      ensures !isLoading && isAuthenticated && user == Some(u) && token == Some(t) && error == None
      ensures storedToken == Some(t)
    {
      isLoading := false;
      isAuthenticated := true;
      user := Some(u);
      token := Some(t);
      error := None;
      storedToken := Some(t);
    }

    method LoginFailure(message: string)
      requires Valid()
      modifies this
      ensures Valid()
      ensures !isLoading && error == Some(message)
      ensures user == old(user) && token == old(token) && isAuthenticated == old(isAuthenticated)
      ensures storedToken == old(storedToken)
    {
      isLoading := false;
      error := Some(message);
    }

    /** Signed out: user, token and stored token are all gone. */
    method Logout()
      modifies this
      ensures Valid()
      ensures user == None && token == None && !isAuthenticated && error == None
      ensures storedToken == None && isLoading == old(isLoading)
    {
      user := None;
      token := None;
      isAuthenticated := false;
      error := None;
      storedToken := None;
    }

    /** `updateUser` and `updateProfile`: the patch is spread over a signed-in user, and ignored otherwise. */
    method UpdateUser(p: UserPatch)
      requires Valid()
      modifies this
      ensures Valid()
      ensures old(user).Some? ==> user == Some(Merge(old(user).value, p))
      ensures old(user).None? ==> user == None
      ensures token == old(token) && isAuthenticated == old(isAuthenticated)
      ensures isLoading == old(isLoading) && error == old(error) && storedToken == old(storedToken)
    {
      if user.Some? {
        user := Some(Merge(user.value, p));
      }
    }

    method ClearError()
      requires Valid()
      modifies this
      ensures Valid()
      ensures error == None
      ensures user == old(user) && token == old(token) && isAuthenticated == old(isAuthenticated)
      ensures isLoading == old(isLoading) && storedToken == old(storedToken)
    {
      error := None;
    }

    /** Sets the flag alone, with or without a user. */
    method SetAuthenticated(b: bool)
      requires Valid()
      modifies this
      ensures Valid()
      ensures isAuthenticated == b
      ensures user == old(user) && token == old(token) && error == old(error)
      ensures isLoading == old(isLoading) && storedToken == old(storedToken)
    {
      isAuthenticated := b;
    }

    /** `testSetAuth`: signs in like `loginSuccess` but leaves the loading flag alone. */
    method TestSetAuth(u: AuthUser, t: string)
      modifies this
      ensures Valid()
      ensures isAuthenticated && user == Some(u) && token == Some(t) && error == None
      ensures storedToken == Some(t) && isLoading == old(isLoading)
    {
      isAuthenticated := true;
      user := Some(u);
      token := Some(t);
      error := None;
      storedToken := Some(t);
    }

    /** `loadUserProfile.pending`. */
    method ProfilePending()
      requires Valid()
      modifies this
      ensures Valid()
      ensures isLoading && error == None
      ensures user == old(user) && token == old(token) && isAuthenticated == old(isAuthenticated)
      ensures storedToken == old(storedToken)
    {
      isLoading := true;
      error := None;
    }

    /** `loadUserProfile.fulfilled`: the profile becomes the signed-in user. */
    method ProfileFulfilled(u: AuthUser)
      requires Valid()
      modifies this
      ensures Valid()
      ensures !isLoading && isAuthenticated && user == Some(u) && error == None
      ensures token == old(token) && storedToken == old(storedToken)
    {
      isLoading := false;
      isAuthenticated := true;
      user := Some(u);
      error := None;
    }

    /**
     * `loadUserProfile.rejected`: signed out in memory, but the stored token
     * is left, so the next page load tries it again.
     */
    method ProfileRejected(message: string)
      requires Valid()
      modifies this
      ensures Valid()
      ensures !isLoading && !isAuthenticated && user == None && token == None && error == Some(message)
      ensures storedToken == old(storedToken)
    {
      isLoading := false;
      isAuthenticated := false;
      user := None;
      token := None;
      error := Some(message);
    }
  }

  /** A rejected profile load followed by a reload brings the rejected token back. */
  method RejectedTokenReturnsOnReload(s: AuthState, message: string) returns (reloaded: AuthState)
    requires s.Valid() && s.token.Some?
    modifies s
    ensures s.token == None
    ensures reloaded.token == old(s.token)
  {
    s.ProfileRejected(message);
    reloaded := new AuthState(s.storedToken);
  }
}
