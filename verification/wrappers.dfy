/** Failure-carrying values shared by the whole model. */
module Wrappers {

  /** Python's `Optional[T]`: a value or `None`. */
  datatype Option<+T> = None | Some(value: T)

  /** A value, or the error that the Python code raises instead of returning. */
  datatype Result<+T, +E> = Ok(value: T) | Err(error: E)
}
