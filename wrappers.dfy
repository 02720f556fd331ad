/** Failure-compatible wrappers used to model Java's nulls and exceptions as values. */
module Wrappers {

  /** A value that may be absent: Java's nullable reference. */
  datatype Option<+T> = None | Some(value: T)

  /** A computation that returns a value or throws an exception. */
  datatype Result<+T, +E> = Success(value: T) | Failure(error: E)

  /** A `void` computation that completes normally or throws an exception. */
  datatype Outcome<+E> = Pass | Fail(error: E)
}
