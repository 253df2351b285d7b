/** Optional values and results with an error, as used throughout the model. */
module Wrappers {

  /** A value that may be absent: Python's `None`. */
  datatype Option<+T> = None | Some(value: T)

  /** The outcome of a step that can raise: a value, or the cause of the exception. */
  datatype Result<+T, +E> = Success(value: T) | Failure(error: E)
}
