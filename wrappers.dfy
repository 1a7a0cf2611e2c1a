/** Failure-compatible result types shared by the modules of this model. */
module Wrappers {

  /** A value that may be absent: Go's nil pointer or a cache miss. */
  datatype Option<+T> = None | Some(value: T)

  /** A value or an error: Go's `(T, error)` pair with exactly one of them set. */
  datatype Result<+T, +E> = Success(value: T) | Failure(error: E) {
    predicate IsFailure() { Failure? }

    function PropagateFailure<U>(): Result<U, E>
      requires Failure?
    {
      Failure(error)
    }

    function Extract(): T
      requires Success?
    {
      value
    }
  }
}
