/** Failure-compatible wrappers shared by the rest of the model. */
module Wrappers {

  /** A value that may be absent: Python's "attribute missing" or `None`. */
  datatype Option<+T> = None | Some(value: T)

  /** Either a value or the exception that was raised instead. */
  datatype Result<+T, +E> = Success(value: T) | Failure(error: E)

  /** Completion with no value, or the exception that was raised instead. */
  datatype Outcome<+E> = Pass | Fail(error: E)
}
