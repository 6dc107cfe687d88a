/** Option and Result values, used in place of Go's (value, error) pairs. */
module Wrappers {

  datatype Option<+T> = None | Some(value: T)

  /** A Go `(T, error)` return: exactly one of the two halves is meaningful. */
  datatype Result<+T, +E> = Success(value: T) | Failure(error: E)
}
