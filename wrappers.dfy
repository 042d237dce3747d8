/** Failure-carrying values used across the model. */
module Wrappers {

  /** A value that may be absent, as `undefined` is in the source. */
  datatype Option<+T> = None | Some(value: T) {
    function GetOr(default: T): T {
      match this
      case Some(v) => v
      case None => default
    }
  }

  /** A computed value or the error an operation throws. */
  datatype Result<+T, +E> = Success(value: T) | Failure(error: E)
}
