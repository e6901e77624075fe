/** Failure-carrying values shared by every module of the model. */
module Wrappers {

  /** A value that may be absent: the model's stand-in for a C NULL pointer or a Python None. */
  datatype Option<+T> = None | Some(value: T)

  /** Either a value or the error that replaced it (a Python exception, a C error return). */
  datatype Result<+T, +E> = Ok(value: T) | Err(error: E)
}
