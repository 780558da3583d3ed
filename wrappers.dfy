/** The two failure-carrying datatypes the model uses in place of Go's nil pointers and error returns. */
module Wrappers {

  /** A value that may be absent: Go's nil pointer or nil slice. */
  datatype Option<+T> = None | Some(value: T)

  /** A value or an error: Go's `(value, error)` return pair. */
  datatype Result<+T, +E> = Success(value: T) | Failure(error: E)
}
