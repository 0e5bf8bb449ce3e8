/**
 * Exceptions the services raise and catch, and the replies of remote client
 * calls. A Python function either returns a value or raises; `Result` records
 * which. A message built with an f-string such as "Failed to upload ...: {e}"
 * is kept as its fixed prefix (`context` or `detail`) plus the exception it
 * quotes (`cause`).
 */
module Errors {

  datatype Option<+T> = None | Some(value: T) {
    /** `d.get(key, default)` once the lookup has produced this option. */
    function GetOr(default: T): T {
      match this
      case Some(v) => v
      case None => default
    }
  }

  /** The exceptions of `google.api_core.exceptions` that the services tell apart. */
  datatype RemoteError = NotFound | AlreadyExists | ApiError(code: nat)

  /** The reply of one remote call: what it returned, or what it raised. */
  datatype Reply<+T> = Ok(value: T) | Fail(error: RemoteError)

  datatype Failure =
    | Remote(error: RemoteError)                                 // a client exception, not wrapped
    | DbError                                                    // a sqlite3 error that is not handled
    | RuntimeError(context: string, cause: Option<Failure>)
    | ValueError(context: string, cause: Option<Failure>)
    | HttpError(status: nat, detail: string, cause: Option<Failure>)   // fastapi.HTTPException
    | ValidationError(missing: seq<string>)                     // pydantic: required fields not given

  datatype Result<+T> = Returned(value: T) | Raised(failure: Failure)

  const HTTP_200_OK: nat := 200
  const HTTP_201_CREATED: nat := 201
  const HTTP_400_BAD_REQUEST: nat := 400
  const HTTP_404_NOT_FOUND: nat := 404
  const HTTP_500_INTERNAL_SERVER_ERROR: nat := 500
}
