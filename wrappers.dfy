/** Option and Result, the failure-compatible wrappers the rest of the model
    uses for Java's nullable references and thrown exceptions. */
module Wrappers {

  /** A Java reference that may be null, or an `Optional`. */
  datatype Option<+T> = None | Some(value: T)

  /** A value, or the exception an operation throws (or a reactive error signal). */
  datatype Result<+T, +E> = Success(value: T) | Failure(error: E) {

    predicate IsFailure() {
      Failure?
    }

    function PropagateFailure<U>(): Result<U, E>
      requires Failure?
    {
      Failure(error)
    }

    function Extract(): T
      requires Success?
    {
      value
    }
  }
}
