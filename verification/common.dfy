/** Failure-compatible wrappers shared by every module of the model. */
module Common {

  /** Python's "a value or `None`". */
  datatype Option<+T> = None | Some(value: T)

  /** A computation that either produced a value or stopped with an error. */
  datatype Result<+T, +E> = Ok(value: T) | Err(error: E)
}
