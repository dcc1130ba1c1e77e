/** Optional values and results with an error, as the handlers and the model gateway use them. */
module Wrappers {

  /** A value that may be absent, as a missing JSON field is. */
  datatype Option<+T> = None | Some(value: T)

  /** The outcome of an operation that can fail with an error message. */
  datatype Result<+R, +E> = Success(value: R) | Failure(error: E)
}
