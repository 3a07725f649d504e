/** Option and Result, the failure-carrying values used across the model. */
module Wrappers {

  /** A value that may be missing: pandas NaN, Python None, JavaScript undefined/null. */
  datatype Option<+T> = None | Some(value: T) {
    function GetOr(default: T): T {
      match this
      case Some(v) => v
      case None => default
    }
  }

  /** The outcome of an operation that can raise. */
  datatype Result<+T, +E> = Ok(value: T) | Err(error: E)
}
