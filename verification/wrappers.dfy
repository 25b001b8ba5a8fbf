/** Python's `None` and raised exceptions as values, used across the model. */
module Wrappers {

  /** A value that may be absent (Python's `Optional`). */
  datatype Option<+T> = None | Some(value: T) {

    /** The wrapped value, or `default` when absent. */
    function GetOr(default: T): T {
      match this
      case Some(v) => v
      case None => default
    }
  }

  /** Either a returned value or the fault that was raised instead. */
  datatype Result<+R, +E> = Success(value: R) | Failure(error: E)
}
