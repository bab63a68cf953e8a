/** Optional values and fallible results, standing in for JavaScript's `null` and thrown errors. */
module Wrappers {

  datatype Option<+T> = None | Some(value: T)

  /** The outcome of an operation that may throw; `error` is the thrown error's message. */
  datatype Result<+T, +E> = Success(value: T) | Failure(error: E)
}
