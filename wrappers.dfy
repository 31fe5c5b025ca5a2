/** Option and Result values used across the model for JavaScript's null/undefined and thrown errors. */
module Wrappers {

  datatype Option<+T> = None | Some(value: T) {
    /** The value, or `default` when absent (JavaScript's `x ?? default`). */
    function GetOr(default: T): T {
      match this
      case Some(v) => v
      case None => default
    }
  }

  /** A computation that returns a value or throws an `Error` carrying a message. */
  datatype Result<+R, +E> = Success(value: R) | Failure(error: E)

  /** An effect that completes or throws an `Error` carrying a message. */
  datatype Outcome<+E> = Pass | Fail(error: E)
}
