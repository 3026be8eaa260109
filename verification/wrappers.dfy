/** Optional values, and results of operations that may throw. */
module Wrappers {

  /** An optional value; `None` stands for JavaScript's `undefined`. */
  datatype Option<+T> = None | Some(value: T)

  /** The outcome of an operation that may throw: `Failure` carries the error. */
  datatype Result<+R, +E> = Success(value: R) | Failure(error: E)
}
