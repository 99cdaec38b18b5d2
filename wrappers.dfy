/** Go's nil-able values and (value, error) returns. */
module Wrappers {

  /** A value that may be absent (a nil map in Go). */
  datatype Option<T> = None | Some(value: T)

  /** A value, or the text of the error Go would return beside it. */
  datatype Result<T> = Ok(value: T) | Err(error: string)
}
