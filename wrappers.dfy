/** Option and Result, the two failure-carrying shapes used across the model. */
module Wrappers {

  datatype Option<+T> = None | Some(value: T)

  /** Either a value or the error the program throws. */
  datatype Result<+T, +E> = Ok(value: T) | Err(error: E)
}
