/** Option and Result: the JavaScript `null`/`undefined` and thrown errors of the model. */
module Wrappers {

  datatype Option<+T> = None | Some(value: T) {
    /** The value, or `default` when absent (the `x || default` idiom on optional values). */
    function GetOr(default: T): T {
      match this
      case Some(v) => v
      case None => default
    }
  }

  /** A call that either returns a value or throws an error carrying a message. */
  datatype Result<+R, +E> = Success(value: R) | Failure(error: E)
}
