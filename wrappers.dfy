/** Optional values and results with an error, used by every other module. */
module Wrappers {

  /** A value that may be absent: `undefined` on the source side. */
  datatype Option<+T> = None | Some(value: T)

  /** The outcome of an operation that may throw. */
  datatype Result<+T, +E> = Success(value: T) | Failure(error: E)
}
