/** Optional values and success-or-failure values, used throughout the model. */
module Wrappers {

  /** A value that may be absent (a missing argument, a missing property). */
  datatype Option<+T> = None | Some(value: T)

  /** The outcome of something that can throw: a value, or the error it threw. */
  datatype Result<+T, +E> = Ok(value: T) | Err(error: E)
}
