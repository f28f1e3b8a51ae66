/** Option and Result values used where the modelled code has `None` or raises. */
module Wrappers {

  datatype Option<+T> = None | Some(value: T) {
    /** The value, or `default` when absent (Python's `x or default`). */
    function GetOr(default: T): T {
      match this
      case Some(v) => v
      case None => default
    }
  }

  /** `Failure` carries the message of the exception the source raises. */
  datatype Result<+R, +E> = Success(value: R) | Failure(error: E)
}
