/** Plain option and result datatypes used throughout the model. */
module Wrappers {

  /** A value that may be absent (Go's nil interface or nil error). */
  datatype Option<T> = None | Some(value: T)

  /** A Go `(value, error)` pair reduced to one of its two meaningful shapes. */
  datatype Result<T, E> = Ok(value: T) | Err(error: E)
}
