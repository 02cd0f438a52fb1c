/** Optional values and results with an error arm, used wherever the source returns nil or raises. */
module Wrappers {

  /** A value or the absence of one (Ruby's nil). */
  datatype Option<+T> = None | Some(value: T)

  /** The outcome of an operation that may raise: its value, or the error it raised. */
  datatype Result<+T, +E> = Ok(value: T) | Err(error: E)
}
