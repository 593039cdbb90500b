/** Option and Result values standing in for Python's None and for raised exceptions. */
module Wrappers {

  /** A value that may be absent (Python's `None`). */
  datatype Option<T> = None | Some(value: T) {
    /** The value, or `default` when absent (Python's `x or default` on an optional string). */
    function GetOr(default: T): T {
      match this
      case Some(v) => v
      case None => default
    }
  }

  /** The outcome of a call that may raise: the value, or the text of the exception. */
  datatype Result<T> = Ok(value: T) | Err(error: string)
}
