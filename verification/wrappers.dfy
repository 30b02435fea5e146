/** Optional values and outcomes that may have failed. */
module Wrappers {

  /** JavaScript's `undefined`/`null`/`NaN` on one side, a present value on the other. */
  datatype Option<+T> = None | Some(value: T) {

    /** The value, or `default` when there is none (JavaScript's `x || default` on a truthy x). */
    function GetOr(default: T): T {
      match this
      case Some(v) => v
      case None => default
    }
  }

  /** A value, or the message a form shows instead of sending it. */
  datatype Result<+T, +E> = Success(value: T) | Failure(error: E)
}
