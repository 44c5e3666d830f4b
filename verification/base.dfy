/** Small value types shared by every module of the model. */
module Base {

  /** A value that may be absent (Python `None`, JavaScript `null`/`undefined`). */
  datatype Option<+T> = None | Some(value: T) {
    function GetOr(default: T): T {
      match this
      case Some(v) => v
      case None => default
    }
  }

  /** The outcome of an operation that can fail with an error value. */
  datatype Result<+T, +E> = Ok(value: T) | Err(error: E)

  /** Wall-clock readings (`new Date()`, `datetime.now`) are opaque instants. */
  type Time = int

  /** FastAPI's `HTTPException(status_code, detail)`. */
  datatype HttpError = HttpError(status: nat, detail: string)

  /** Record identifiers (UUIDs and integer keys alike) are opaque. */
  type Id = int

  /** A value thrown in JavaScript: an `Error` instance or anything else. */
  datatype Thrown = ErrorInstance(message: string) | OtherValue(truthy: bool)
}
