/** Absent values and failures, the two shapes every module below returns. */
module Wrappers {

  /** A value that may be absent (JavaScript `undefined`/`null` at a typed boundary). */
  datatype Option<+T> = None | Some(value: T) {
    function GetOr(default: T): T {
      match this
      case Some(v) => v
      case None => default
    }
  }

  /** A computation that either produced a value or threw an error. */
  datatype Result<+T, +E> = Ok(value: T) | Err(error: E)
}
