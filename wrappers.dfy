/** Python's `None`-or-value and exception-or-value, as datatypes. */
module Wrappers {

  /** A value that may be Python's `None`. */
  datatype Option<+T> = None | Some(value: T) {

    /** The value, or `default` when absent (Python's `d.get(key, default)`). */
    function GetOr(default: T): T {
      match this
      case Some(v) => v
      case None => default
    }
  }

  /** A result that is either a value or a raised exception. */
  datatype Result<+T, +E> = Success(value: T) | Failure(error: E)
}
