/** Failure-carrying values shared by every module of the model. */
module Wrappers {

  /** A value that may be absent: a missing header, a row not found. */
  datatype Option<+T> = None | Some(value: T)

  /** The outcome of an operation that either yields a value or throws an error. */
  datatype Result<+T, +E> = Ok(value: T) | Err(error: E)
}
