/** Failure-carrying datatypes shared by every module of the model. */
module Wrappers {

  /** An optional value: Python's `None` or a present value. */
  datatype Option<+T> = None | Some(value: T) {

    /** Returns the present value, or `default` when there is none. */
    function GetOr(default: T): T {
      match this
      case Some(v) => v
      case None => default
    }
  }

  /** The outcome of an operation that may raise: a value or the raised error. */
  datatype Result<+R, +E> = Success(value: R) | Failure(error: E)
}
