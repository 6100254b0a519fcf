/** The Option, Result and Outcome wrappers used throughout the model. */
module Wrappers {

  datatype Option<+T> = None | Some(value: T)

  /** The value a Python call returns, or the exception it raises. */
  datatype Result<+T, +E> = Ok(value: T) | Err(error: E)

  /** A Python call that returns None, or the exception it raises. */
  datatype Outcome<+E> = Pass | Fail(error: E)
}
