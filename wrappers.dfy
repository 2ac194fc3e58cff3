/** Failure-carrying values used by the rest of the model. */
module Wrappers {

  datatype Option<+T> = None | Some(value: T)

  datatype Result<+T, +E> = Ok(value: T) | Err(error: E)

  /** Like Result, for operations that return nothing when they succeed. */
  datatype Outcome<+E> = Pass | Fail(error: E)
}
