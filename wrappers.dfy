/** Option and Result values, used for the error returns of the Go code. */
module Wrappers {

  /** A value that may be absent (a nil pointer, a missing map entry). */
  datatype Option<+T> = None | Some(value: T)

  /** Either a value or the error that was returned instead of it. */
  datatype Result<+T, +E> = Ok(value: T) | Err(error: E)

  /** The error return of a Go function whose only result is an `error`. */
  datatype Outcome<+E> = Pass | Fail(error: E)
}
