/** Failure-carrying datatypes shared by the rest of the model: an optional value
    (Go's nil pointer) and a value-or-error pair (Go's `(T, error)` return). */
module Wrappers {

  datatype Option<+T> = None | Some(value: T) {

    /** The carried value, or `default` when there is none. */
    function GetOr(default: T): T {
      match this
      case Some(v) => v
      case None => default
    }
  }

  datatype Result<+R, +E> = Success(value: R) | Failure(error: E)
}
