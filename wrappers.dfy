/** Plain result types standing in for Java's null references and exceptions. */
module Wrappers {

  /** A possibly absent value: `None` models a Java `null` reference. */
  datatype Option<+T> = None | Some(value: T)

  /** The value of an operation that either returns normally or throws. */
  datatype Result<+T, +E> = Success(value: T) | Failure(error: E)

  /** The outcome of a `void` operation that may throw. */
  datatype Outcome<+E> = Pass | Fail(error: E)
}
