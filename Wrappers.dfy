/** Option, Result and Outcome, the failure-compatible datatypes the model uses
    for Python's `None`, for values computed by code that may raise, and for a
    call that either returns or raises. */
module Wrappers {

  datatype Option<+T> = None | Some(value: T)

  datatype Result<+T, +E> = Success(value: T) | Failure(error: E) {
    predicate IsFailure() { Failure? }

    function PropagateFailure<U>(): Result<U, E>
      requires Failure?
    {
      Failure(error)
    }

    function Extract(): T
      requires Success?
    {
      value
    }
  }

  /** A call that returns normally (`Pass`) or raises (`Fail`). */
  datatype Outcome<+E> = Pass | Fail(error: E)
}
