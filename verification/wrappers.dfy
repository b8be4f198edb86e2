/** Option and Result, the two failure-compatible wrappers the model uses for
    Go's `error` values and for the answers of the parts outside the model. */
module Wrappers {

  /** A value that may be absent; with `:-`, an absent value is the failure.
      The model also stores a Go `error` that may be nil in it, `None` being
      nil; such values are matched on, never passed to `:-`. */
  datatype Option<+T> = None | Some(value: T) {

    predicate IsFailure() {
      None?
    }

    function PropagateFailure<U>(): Option<U>
      requires None?
    {
      None
    }

    function Extract(): T
      requires Some?
    {
      value
    }
  }

  /** A value or the error that prevented it. */
  datatype Result<+R, +E> = Success(value: R) | Failure(error: E) {

    predicate IsFailure() {
      Failure?
    }

    function PropagateFailure<U>(): Result<U, E>
      requires Failure?
    {
      Failure(error)
    }

    function Extract(): R
      requires Success?
    {
      value
    }
  }
}
