/** Optional values and results with an error side, shared by the other modules. */
module Wrappers {

  /** A value that may be absent. */
  datatype Option<+T> = None | Some(value: T)

  /** The outcome of an operation that either produces a value or fails with an error. */
  datatype Result<+R, +E> = Success(value: R) | Failure(error: E)
}
