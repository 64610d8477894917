/** Option and Result values used where the Go code returns `nil`, `(value, ok)` or `error`. */
module Wrappers {

  datatype Option<+T> = None | Some(value: T)

  datatype Result<+T, +E> = Success(value: T) | Failure(error: E)
}
