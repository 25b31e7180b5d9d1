/** The two result shapes used everywhere: a value that may be missing, and Go's (value, error). */
module Wrappers {
  datatype Option<+T> = None | Some(value: T)

  datatype Result<+T, +E> = Ok(value: T) | Err(error: E)
}
