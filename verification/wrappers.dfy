/** Failure-carrying wrappers used throughout the model: `Option` for a value
    that may be absent, `Result` for a computation that may raise. */
module Wrappers {

  datatype Option<+T> = None | Some(value: T) {
    function GetOr(default: T): T {
      match this
      case Some(v) => v
      case None => default
    }
  }

  /** `Failure` carries the text of the exception, as `str(e)` would render it. */
  datatype Result<+R> = Success(value: R) | Failure(error: string)
}
