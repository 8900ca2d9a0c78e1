/** Option and Result, the two failure-aware wrappers the model is built on. */
module Wrappers {

  /** An optional value; in the error model also "this attribute was never assigned". */
  datatype Option<+T> = None | Some(value: T) {
    function GetOr(default: T): T {
      match this
      case Some(v) => v
      case None => default
    }
  }

  /** The outcome of a Python operation that either returns a value or raises. */
  datatype Result<+T, +E> = Ok(value: T) | Err(error: E)
}
