/** Option and Result values used across the model for absent values and thrown errors. */
module Wrappers {

  datatype Option<+T> = None | Some(value: T)

  /** A JavaScript call either returns a value or throws an error. */
  datatype Result<+T, +E> = Ok(value: T) | Err(error: E)

  /** A JavaScript call that returns `{ success: true }` or throws an error. */
  datatype Outcome<+E> = Pass | Fail(error: E)
}
