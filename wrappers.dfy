/** Failure-carrying values used by every module of the model. */
module Wrappers {

  /** A value that may be absent: Python's `Optional[T]`. */
  datatype Option<+T> = None | Some(value: T)

  /** The outcome of an operation that can raise: a value, or the exception it raised. */
  datatype Result<+T, +E> = Ok(value: T) | Err(error: E)
}
