/** Failure-compatible wrappers standing for Java's null returns and thrown exceptions. */
module Wrappers {

  /** A value or the absence of one (Java's null). */
  datatype Option<+T> = None | Some(value: T)

  /** A value, or the exception that was thrown instead. Usable with `:-`. */
  datatype Result<+T, +E> = Success(value: T) | Failure(error: E) {
    predicate IsFailure() {
      Failure?
    }

    function PropagateFailure<U>(): Result<U, E>
      requires Failure?
    {
      Failure(error)
    }

    function Extract(): T
      requires Success?
    {
      value
    }
  }

  /** A void operation that either completes or throws. */
  datatype Outcome<+E> = Pass | Fail(error: E)
}
