/** Option and Result, used for the nullable values and the exceptions of the client library. */
module Wrappers {

  /** A value that may be absent: PHP's `?T` (null or a T). */
  datatype Option<+T> = None | Some(value: T)

  /** The outcome of an operation that either returns a value or throws. */
  datatype Result<+T, +E> = Success(value: T) | Failure(error: E)
}
