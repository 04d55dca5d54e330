/** Optional values and host failures, in the shape used throughout the model. */
module Wrappers {

  /** A value that may be absent (PHP `null`). */
  datatype Option<+T> = None | Some(value: T)

  /** Either a value or the exception the host would have thrown. */
  datatype Result<+T, +E> = Success(value: T) | Failure(error: E)
}
