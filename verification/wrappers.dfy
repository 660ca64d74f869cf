/** Failure-compatible result types shared by every module of the model. */
module Wrappers {

  /** A value that may be absent: an optional DTO field, a nullable column. */
  datatype Option<+T> = None | Some(value: T) {

    /** The value if present, otherwise `default` (the source's `x || default`). */
    function GetOr(default: T): T {
      match this
      case Some(v) => v
      case None => default
    }
  }

  /** The outcome of an operation that throws in the source. */
  datatype Result<+R, +E> = Success(value: R) | Failure(error: E) {

    predicate IsFailure() {
      Failure?
    }

    function PropagateFailure<U>(): Result<U, E>
      requires Failure?
    {
      Failure(error)
    }

    function Extract(): R
      requires Success?
    {
      value
    }
  }
}
