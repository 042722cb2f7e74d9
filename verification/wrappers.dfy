/** Failure-compatible wrappers standing in for Java's null and exceptions. */
module Wrappers {

  /** A value that may be absent: None plays the role of a Java null reference. */
  datatype Option<+T> = None | Some(value: T)

  /** The outcome of a computation that either returns a value or throws. */
  datatype Result<+R, +E> = Success(value: R) | Failure(error: E)

  /** The outcome of a void call: it returns normally or throws. */
  datatype Outcome<+E> = Pass | Fail(error: E)
}
