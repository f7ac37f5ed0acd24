/** Failure-carrying wrappers used throughout the model. */
module Wrappers {

  /** A value that may be missing, where Go returns nil. */
  datatype Option<+T> = None | Some(value: T)

  /** A value or the error that prevented computing it. */
  datatype Result<+T, +E> = Ok(value: T) | Err(error: E)
}
