/** Option and Result values for the model's partial operations and thrown errors. */
module Wrappers {

  /** A value that may be absent: JavaScript's `null`, Swift's `nil`. */
  datatype Option<+T> = None | Some(value: T) {
    function GetOr(default: T): T {
      match this
      case Some(v) => v
      case None => default
    }
  }

  /** The outcome of an operation that can throw: `Ok` carries the value, `Err` the error. */
  datatype Result<+R, +E> = Ok(value: R) | Err(error: E)
}
