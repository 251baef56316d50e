/** Failure-carrying datatypes for the lock's error outcomes. */
module Wrappers {

  /** A value that may be absent: models a Java reference that may be null. */
  datatype Option<+T> = None | Some(value: T)

  /** The result of an operation that either yields a value or fails with an error. */
  datatype Result<+T, +E> = Success(value: T) | Failure(error: E)

  /** The result of an operation that yields nothing on success (a Java `void` method that may throw). */
  datatype Outcome<+E> = Pass | Fail(error: E)
}
