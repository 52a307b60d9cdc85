/** Optional values and results with an error, as used throughout the model. */
module Wrappers {

  /** A value that may be absent: Python's `None` or a value. */
  datatype Option<+T> = None | Some(value: T)

  /** The result of a step that may raise: `Success` or `Failure` with the error. */
  datatype Result<+T, +E> = Success(value: T) | Failure(error: E)
}
