/** Option and Result values used in place of Go's nil pointers and error returns. */
module Wrappers {

  /** A value that may be missing (a Go pointer that may be nil). */
  datatype Option<+T> = None | Some(value: T)

  /** A value or an error message (a Go `(T, error)` pair where exactly one is meaningful). */
  datatype Result<+T> = Ok(value: T) | Err(error: string)
}
