/** Option and Result: Python's `None`-or-value and value-or-exception. */
module Wrappers {

  datatype Option<+T> = None | Some(value: T) {
    function GetOr(default: T): T {
      match this
      case Some(v) => v
      case None => default
    }
  }

  /** The outcome of a call that either returns a value or raises an exception value. */
  datatype Result<+T, +E> = Ok(value: T) | Err(error: E)
}
