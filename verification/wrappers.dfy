/** Optional values and results that carry an error, used throughout the model. */
module Wrappers {

  /** An absent value: the model's `undefined`. */
  datatype Option<+T> = None | Some(value: T)

  /** A settled computation: a value, or the error it failed with. */
  datatype Result<+T, +E> = Success(value: T) | Failure(error: E)
}
