/** Failure-compatible wrappers used for the error paths of the model. */
module Wrappers {

  datatype Option<+T> = None | Some(value: T) {
    /** The value, or `default` when there is none. */
    function GetOr(default: T): T {
      if Some? then value else default
    }

    /** This option, or `other` when this one is empty. */
    function Or(other: Option<T>): Option<T> {
      if Some? then this else other
    }
  }

  /** A value or the error that the source raises instead of returning it. */
  datatype Result<+R, +E> = Success(value: R) | Failure(error: E) {
    predicate IsFailure() { Failure? }

    function PropagateFailure<U>(): Result<U, E>
      requires Failure?
    {
      Failure(error)
    }

    function Extract(): R
      requires Success?
    {
      value
    }
  }

  /** The outcome of a check that returns nothing on success (Python's `-> None`). */
  datatype Outcome<+E> = Pass | Fail(error: E)
}
