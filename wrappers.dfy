/** Failure-carrying values used for the engine's exceptions. */
module Wrappers {

  datatype Option<+T> = None | Some(value: T)

  /** A successful value, or the error an operation raised. */
  datatype Result<+T, +E> = Ok(value: T) | Err(error: E)
}
