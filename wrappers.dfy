/** Optional values and success-or-error results, as used throughout the model. */
module Wrappers {

  /** A value that may be absent: JavaScript's `undefined`/`null` versus a present value. */
  datatype Option<+T> = None | Some(value: T)

  /** The outcome of an operation that either produces a value or reports an error. */
  datatype Result<+T, +E> = Ok(value: T) | Err(error: E)
}
