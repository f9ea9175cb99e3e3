/** Option and Result, the two ways the operator's collaborators answer:
    a value that may be absent (a nil pointer) and a value or a Go error. */
module Wrappers {

  datatype Option<+T> = None | Some(value: T)

  /** A Go `(value, error)` pair: `Err` carries the error's message. */
  datatype Result<+T> = Ok(value: T) | Err(error: string)
}
