/** Failure-carrying values: Go's `(value, error)` pairs and nil-able pointers. */
module Wrappers {

  datatype Option<+T> = None | Some(value: T)

  /** A Go `(T, error)` result: `Err` carries the error's text. */
  datatype Result<+T> = Ok(value: T) | Err(error: string)
}
