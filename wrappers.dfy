/** Option and Result values used throughout the model. */
module Wrappers {

  /** A value that may be absent (a Ruby `nil` return). */
  datatype Option<+T> = None | Some(value: T)

  /** The outcome of an operation that can raise: its value, or the error raised. */
  datatype Result<+T, +E> = Success(value: T) | Failure(error: E)
}
