/** Failure-carrying result types used throughout the model. */
module Wrappers {

  datatype Option<+T> = None | Some(value: T)

  /** A computation that either yields a value or raises an error. */
  datatype Result<+T, +E> = Ok(value: T) | Err(error: E)

  /** A computation that yields nothing but may raise an error. */
  datatype Outcome<+E> = Pass | Fail(error: E)
}
