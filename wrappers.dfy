/** Option and Result values used in place of Go's nil and (value, error) pairs. */
module Wrappers {

  /** A value or its absence (a nil pointer, a nil map, a nil interface). */
  datatype Option<+T> = None | Some(value: T)

  /** A value or an error; the error is the message of the Go error value. */
  datatype Result<+T> = Ok(value: T) | Err(msg: string)
}
