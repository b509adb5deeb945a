/** Option and Result values standing for Go's nil-able results and `(T, error)` pairs. */
module Wrappers {

  /** A value that may be absent (Go's nil). */
  datatype Option<+T> = None | Some(value: T)

  /** Either a value or the error that prevented producing one. */
  datatype Result<+T, +E> = Success(value: T) | Failure(error: E)
}
