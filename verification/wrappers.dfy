/** Failure-carrying datatypes used across the model: `Option` for a value that
    may be absent (a missing request field, a missing row), `Result` for an
    operation that either yields a value or fails with an error. */
module Wrappers {

  datatype Option<+T> = None | Some(value: T) {

    /** The carried value, or `default` when there is none. */
    function GetOr(default: T): T {
      match this
      case Some(v) => v
      case None => default
    }
  }

  datatype Result<+R, +E> = Success(value: R) | Failure(error: E)
}
