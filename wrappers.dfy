/** Optional values and results with an error, shared by the SQS and STS models. */
module Wrappers {

  /** A value that may be missing (Python's None). */
  datatype Option<+T> = None | Some(value: T)

  /** The outcome of an operation that either returns a value or raises an error. */
  datatype Result<+T, +E> = Success(value: T) | Failure(error: E)
}
