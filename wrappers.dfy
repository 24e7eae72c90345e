/** Option and Result values shared by the modules of the feed model. */
module Wrappers {

  /** A value that may be absent: a nullable field, an `undefined` page parameter. */
  datatype Option<+T> = None | Some(value: T) {
    function GetOr(default: T): T {
      match this
      case Some(v) => v
      case None => default
    }
  }

  /** The outcome of a remote call: a value, or the error it was rejected with. */
  datatype Result<+R, +E> = Ok(value: R) | Err(error: E)
}
