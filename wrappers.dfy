/** Failure-compatible wrappers shared by the model. */
module Wrappers {

  /** A value that may be absent: JavaScript's `undefined` / `null`, or a failed parse. */
  datatype Option<+T> = None | Some(value: T) {
    function GetOr(default: T): T {
      match this
      case Some(v) => v
      case None => default
    }
  }

  /** The outcome of an awaited backend call: it resolved with a value or rejected with an error. */
  datatype Result<+T, +E> = Ok(value: T) | Err(error: E)
}
