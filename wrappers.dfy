/** Optional values and success/failure results, used wherever the Python code
    returns None or raises an exception that its caller catches. */
module Wrappers {

  datatype Option<+T> = None | Some(value: T) {
    function GetOr(default: T): T {
      match this
      case Some(v) => v
      case None => default
    }
  }

  /** `Failure` carries the message that `str(e)` would give for the exception. */
  datatype Result<+R, +E> = Success(value: R) | Failure(error: E)
}
