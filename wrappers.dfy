/** Option, Result and Outcome: the model's stand-ins for null references and for
    methods that either return a value or raise a checked exception. */
module Wrappers {

  /** A value that may be absent (a Java reference that may be null). */
  datatype Option<+T> = None | Some(value: T)

  /** The value of an operation that either returns normally or fails. */
  datatype Result<+R, +E> = Success(value: R) | Failure(error: E)

  /** The value of a check that returns nothing when it passes. */
  datatype Outcome<+E> = Pass | Fail(error: E)
}
