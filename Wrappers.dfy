/** Option and Result: absent values and error returns of the modelled Python code. */
module Wrappers {

  /** A Python value that may be `None`. */
  datatype Option<+T> = None | Some(value: T) {
    function GetOr(default: T): T {
      match this
      case Some(v) => v
      case None => default
    }
  }

  /** The outcome of a call that may raise: `Err` carries the exception's message. */
  datatype Result<+R, +E> = Ok(value: R) | Err(error: E)
}
