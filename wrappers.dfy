/** Option and Result, the failure-carrying values used throughout the model. */
module Wrappers {

  datatype Option<+T> = None | Some(value: T)

  /** `Err` stands for a raised exception: Python code that raises is modelled as returning `Err`. */
  datatype Result<+T, +E> = Ok(value: T) | Err(error: E)
}
