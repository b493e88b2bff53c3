/** Optional values and results with an error, standing in for Swift's `T?` and `throws`. */
module Wrappers {

  /** Swift's `Optional`: `None` is `nil`. */
  datatype Option<+T> = None | Some(value: T)

  /** The outcome of a call that may throw: a value or the error it throws. */
  datatype Result<+T, +E> = Success(value: T) | Failure(error: E)
}
