/** Small shared vocabulary: optional values and the HTTP-style replies of the API. */
module Wrappers {

  /** A JavaScript value that may be `undefined`/`null`. */
  datatype Option<T> = None | Some(value: T)

  /**
   * What an Express handler answers: a success with its status code and body,
   * the uniform `{success: false, message}` envelope with an error status, or
   * an exception the handler lets escape to the error middleware (which is not
   * part of this model, so the status it picks is left open).
   */
  datatype Reply<T> = Success(code: nat, body: T) | Failure(code: nat, message: string) | Thrown(reason: string)

  /** `Math.max(0, x)`. */
  function ClampAtZero(x: int): (r: nat)
    ensures r >= x && (r == 0 || r == x)
  {
    if x < 0 then 0 else x
  }
}
