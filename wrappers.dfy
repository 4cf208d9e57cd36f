/** Optional values, results and the gateway's HTTP error, shared by every module of the
    gateway model. */
module Wrappers {

  /** An optional value: Python's `X | None`. */
  datatype Option<+T> = None | Some(value: T) {
    function GetOr(default: T): T {
      match this
      case Some(v) => v
      case None => default
    }
  }

  /** Either a value or the error a service raises in its place. */
  datatype Result<+T, +E> = Ok(value: T) | Err(error: E)

  /** FastAPI's `HTTPException(status_code, detail)`, the only error the services raise. */
  datatype HttpError = HttpError(status: int, detail: string)
}
