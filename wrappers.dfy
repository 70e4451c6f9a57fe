/** Failure-carrying result types used across the model. */
module Wrappers {

  /** Python's `None` or a value. */
  datatype Option<+T> = None | Some(value: T) {
    function GetOr(default: T): T {
      match this
      case Some(v) => v
      case None => default
    }
  }

  /** Either a value or an error, for operations whose Python code raises or returns early. */
  datatype Result<+R, +E> = Ok(value: R) | Err(error: E)
}
