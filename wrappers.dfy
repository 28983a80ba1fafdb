/** Small failure-compatible wrappers shared by every module of the model. */
module Wrappers {

  /** Python's `None`-or-value and JavaScript's `null`-or-value. */
  datatype Option<+T> = None | Some(value: T)

  /** Success or failure with an error payload. */
  datatype Result<+T, +E> = Ok(value: T) | Err(error: E)
}
