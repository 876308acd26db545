/** Failure-carrying values used throughout the model. */
module Wrappers {

  datatype Option<+T> = None | Some(value: T)

  /** The value of a Go `(T, error)` pair: either a result or an error message. */
  datatype Result<+T, +E> = Success(value: T) | Failure(error: E)
}
