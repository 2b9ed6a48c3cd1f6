/** The plumbing every callable Cloud Function shares: the caller identity the
    platform attaches to a request, the `HttpsError` a handler throws, and the
    JavaScript truthiness test the handlers apply to optional string fields. */
module Callable {

  /** A value that may be absent (`undefined` or `null` in the program). */
  datatype Option<+T> = None | Some(value: T)

  /** The authenticated caller, `request.auth`; only its uid is consulted. */
  datatype Auth = Auth(uid: string)

  /** The `HttpsError` codes the two handlers throw. */
  datatype Code =
    | Unauthenticated
    | InvalidArgument
    | FailedPrecondition
    | Internal
    | PermissionDenied
    | NotFound

  /** A thrown `HttpsError`: the code the caller sees and its message. */
  datatype HttpsError = HttpsError(code: Code, message: string)

  /** Either the handler's return value or the error it throws. */
  datatype Result<+T> = Ok(value: T) | Err(error: HttpsError)

  /** JavaScript truthiness of an optional string: `undefined` and `""` are
      falsy, every other string is truthy. */
  predicate Truthy(v: Option<string>)
  {
    v.Some? && v.value != ""
  }
}
