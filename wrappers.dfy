/** Option and Result datatypes shared by the worker model. */
module Wrappers {
  datatype Option<T> = None | Some(value: T)

  /** An exception in the worker becomes Err; a normal return becomes Ok. */
  datatype Result<T, E> = Ok(value: T) | Err(error: E)
}
