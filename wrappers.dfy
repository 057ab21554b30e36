/** Option and Result, the two failure-carrying shapes the whole model uses:
    Python's `Optional[X]` becomes `Option<X>`, and every operation that can raise
    returns a `Result` whose failure side holds the exception value. */
module Wrappers {

  datatype Option<+T> = None | Some(value: T) {

    /** The value, or `default` when there is none (a keyword argument left out). */
    function GetOr(default: T): T {
      match this
      case Some(v) => v
      case None => default
    }
  }

  datatype Result<+R, +E> = Success(value: R) | Failure(error: E)
}
