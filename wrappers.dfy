/** Option and Result, used for the absent values and the error returns of the facade. */
module Wrappers {

  /** A value that may be absent (a Go `nil` interface, an empty span id). */
  datatype Option<+T> = None | Some(value: T)

  /** A value or the error that prevented computing it (Go's `(T, error)` pair). */
  datatype Result<+T, +E> = Ok(value: T) | Err(error: E)
}
