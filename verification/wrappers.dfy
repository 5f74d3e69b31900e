/** Option and Result values used across the model (a Go nil pointer or an `error` return). */
module Wrappers {

  datatype Option<+T> = None | Some(value: T)

  datatype Result<+R, +E> = Success(value: R) | Failure(error: E)
}
