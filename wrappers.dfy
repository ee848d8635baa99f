/** Option, Result and Outcome values for the Python `None` default and for exceptions. */
module Wrappers {

  datatype Option<+T> = None | Some(value: T)

  /** A value, or the exception Python would raise instead. */
  datatype Result<+T, +E> = Success(value: T) | Failure(error: E)

  /** A statement that completes or raises. */
  datatype Outcome<+E> = Pass | Fail(error: E)
}
