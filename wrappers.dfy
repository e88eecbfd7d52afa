/** The error-or-value return of a Go function `(T, error)`. */
module Wrappers {

  datatype Result<+T, +E> = Success(value: T) | Failure(error: E)
}
