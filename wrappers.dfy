/** Option and Result, the two failure-carrying shapes the model uses for
    Python's None and for exceptions. */
module Wrappers {

  datatype Option<+T> = None | Some(value: T) {
    function GetOr(default: T): T {
      match this
      case Some(v) => v
      case None => default
    }
  }

  /** `Failure(e)` stands for an exception raised with message `e`. */
  datatype Result<+T, +E> = Success(value: T) | Failure(error: E)
}
