/** Optional values and success/failure results used across the model. */
module Wrappers {

  /** A JavaScript value that may be `undefined` (or, for objects, missing). */
  datatype Option<+T> = None | Some(value: T)

  /** The outcome of an operation that may throw. */
  datatype Result<+R, +E> = Success(value: R) | Failure(error: E)
}
