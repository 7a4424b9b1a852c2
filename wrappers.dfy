/** Failure-compatible wrappers shared by the crawler model. */
module Wrappers {

  /** An optional value: `None` stands for JavaScript's `null`/`undefined`. */
  datatype Option<+T> = None | Some(value: T) {
    function GetOr(default: T): T {
      match this
      case Some(v) => v
      case None => default
    }
  }

  /** The outcome of a call that may throw. */
  datatype Result<+R, +E> = Success(value: R) | Failure(error: E)
}
