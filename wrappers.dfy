/** Option and Result values standing in for Go's nil pointers and `error` returns. */
module Wrappers {

  /** A value that may be absent (a nil pointer or nil interface in Go). */
  datatype Option<+T> = None | Some(value: T)

  /** The result of an operation that returns either a value or an error. */
  datatype Result<+T, +E> = Ok(value: T) | Err(error: E)
}
