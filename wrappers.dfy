/** Option, Result and Outcome: the failure-carrying values used by the model. */
module Wrappers {

  /** A value that may be missing (JavaScript `null` or `undefined`). */
  datatype Option<+T> = None | Some(value: T)

  /** A value, or the error an operation throws instead of returning one. */
  datatype Result<+T, +E> = Success(value: T) | Failure(error: E)

  /** Completion of an operation that returns nothing but may throw. */
  datatype Outcome<+E> = Pass | Fail(error: E)
}
