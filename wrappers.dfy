/** Option and Result values shared by every module of the model. */
module Wrappers {

  /** A value that may be absent: the model of `null`, `undefined` and `Optional`. */
  datatype Option<+T> = None | Some(value: T) {
    function GetOr(default: T): T {
      match this
      case Some(v) => v
      case None => default
    }
  }

  /** The outcome of an operation that can raise an error instead of returning. */
  datatype Result<+T, +E> = Ok(value: T) | Err(error: E)
}
