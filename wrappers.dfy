/** Option and Result, the two failure-carrying shapes the rest of the model uses. */
module Wrappers {

  /** A value that may be absent: a Go reference or interface that may be nil. */
  datatype Option<+T> = None | Some(value: T)

  /** Either a value or an error, as a Go `(T, error)` pair where exactly one is set. */
  datatype Result<+T, +E> = Success(value: T) | Failure(error: E)
}
