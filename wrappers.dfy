/** Option and Result, used for JavaScript's `undefined`-or-value and for
    service calls that either succeed or fail with a named error. */
module Wrappers {

  datatype Option<+T> = None | Some(value: T) {
    /** `x ?? d` in JavaScript, for an absent value. */
    function GetOr(default: T): T {
      match this
      case Some(v) => v
      case None => default
    }
  }

  datatype Result<+T, +E> = Success(value: T) | Failure(error: E)
}
