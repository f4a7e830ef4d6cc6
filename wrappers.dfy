/** Option and Result, for absent values and error returns. */
module Wrappers {

  datatype Option<+T> = None | Some(value: T)

  /** A value or an error message. */
  datatype Result<+T> = Ok(value: T) | Err(error: string)
}
