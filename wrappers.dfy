/** Option and Result, the failure-carrying values used across the model. */
module Wrappers {

  /** A value that may be absent (an optional field, a failed lookup, an engine call that threw). */
  datatype Option<+T> = None | Some(value: T) {
    function GetOr(default: T): T {
      match this
      case Some(v) => v
      case None => default
    }
  }

  /** The outcome of an engine call that either returns a value or throws with a message. */
  datatype Result<+R, +E> = Success(value: R) | Failure(error: E)
}
