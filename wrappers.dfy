/** Failure-compatible result types standing in for Java's null and exceptions. */
module Wrappers {

  /** `None` plays the role of a Java `null` return. */
  datatype Option<+T> = None | Some(value: T)

  /** A value, or the error that aborted the computation. */
  datatype Result<+T, +E> = Success(value: T) | Failure(error: E)

  /** The outcome of a `void` operation that may throw. */
  datatype Outcome<+E> = Pass | Fail(error: E)
}
