/** Optional values and results shared by every module of the model. */
module Wrappers {

  datatype Option<+T> = None | Some(value: T)

  /** The outcome of an operation that may fail with an error value of type E. */
  datatype Result<+T, +E> = Ok(value: T) | Err(error: E)
}
