/** Failure-compatible wrappers shared by the model. */
module Wrappers {

  /** A value that may be absent (a nil pointer, a map miss). */
  datatype Option<+T> = None | Some(value: T)

  /** A value or the fault that prevented it. */
  datatype Result<+T, +E> = Success(value: T) | Failure(error: E)

  /** Completion of an operation that yields no value. */
  datatype Outcome<+E> = Pass | Fail(error: E)
}
