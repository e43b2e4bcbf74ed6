/** Optional values and results with an error, used throughout the model. */
module Wrappers {

  /** A value that may be absent: JavaScript's `null`/`undefined`, Python's `None`. */
  datatype Option<+T> = None | Some(value: T)

  /** The outcome of a call that either gives a value or fails with an error. */
  datatype Result<+R, +E> = Success(value: R) | Failure(error: E)
}
