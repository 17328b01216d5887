/** Failure-compatible wrappers used throughout the model. */
module Wrappers {

  datatype Option<+T> = None | Some(value: T)

  /** A value, or the exception that was raised instead of computing it. */
  datatype Result<+T, +E> = Success(value: T) | Failure(error: E)

  /** Either nothing went wrong, or an exception was raised. */
  datatype Outcome<+E> = Pass | Fail(error: E)
}
