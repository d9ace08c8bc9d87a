/** Failure-carrying values used across the model: Go's `(T, error)` pairs and
    nil-or-error returns. */
module Wrappers {

  datatype Option<+T> = None | Some(value: T)

  datatype Result<+T, +E> = Success(value: T) | Failure(error: E)
}
