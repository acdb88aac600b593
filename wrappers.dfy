/** Option and Outcome, as used across the model. */
module Wrappers {

  datatype Option<+T> = None | Some(value: T) {
    /** The value, or `default` when there is none — JavaScript's `x || default` on an object slot. */
    function GetOr(default: T): T {
      match this
      case Some(v) => v
      case None => default
    }
  }

  /** The outcome of an operation that can throw to its caller. */
  datatype Outcome<+E> = Pass | Fail(error: E)
}
