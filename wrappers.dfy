/** Failure-carrying value types used in place of PHP's null returns and exceptions. */
module Wrappers {

  /** A value that may be absent (PHP's `null`). */
  datatype Option<+T> = None | Some(value: T)

  /** A value, or the exception that an operation raised instead of returning it. */
  datatype Result<+T, +E> = Success(value: T) | Failure(error: E)

  /** The outcome of an operation that returns nothing but may raise an exception. */
  datatype Outcome<+E> = Pass | Fail(error: E)
}
