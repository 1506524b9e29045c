/** Failure-carrying values shared by every module of the model. */
module Wrappers {

  /** A value that may be missing: a Python `None`, an absent dictionary key, or a SQL NULL. */
  datatype Option<T> = None | Some(value: T)

  /** The outcome of an operation that can fail; `Err` stands for a raised exception or an HTTP error. */
  datatype Result<T, E> = Ok(value: T) | Err(error: E)
}
