/** Option and Result values shared by every layer of the model. */
module Wrappers {

  /** A value that may be absent: a C pointer that may be NULL, a header that may be missing. */
  datatype Option<+T> = None | Some(value: T) {
    function GetOr(default: T): T
    {
      match this
      case Some(v) => v
      case None => default
    }
  }

  /** The outcome of an operation that either returns or throws. */
  datatype Result<+T, +E> = Ok(value: T) | Err(error: E)
}
