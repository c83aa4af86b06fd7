/** Optional values and error-carrying results shared by the modules of the model. */
module Wrappers {

  /** A value that may be absent (Python's `None`). */
  datatype Option<+T> = None | Some(value: T) {

    /** The wrapped value, or `default` when absent. */
    function GetOr(default: T): T {
      match this
      case Some(v) => v
      case None => default
    }
  }

  /** The outcome of an operation that either succeeds or raises an HTTP error. */
  datatype Result<+T, +E> = Ok(value: T) | Err(error: E)
}

/** The HTTP errors the handlers raise: a status code and a detail message. */
module Http {
  datatype HttpError = HttpError(status: int, detail: string)

  const NotFoundStatus: int := 404
  const ConflictStatus: int := 409
}
