/** An optional value and a value-or-error result. */
module Wrappers {

  /** A value that may be absent: the model's stand-in for `undefined`. */
  datatype Option<+T> = None | Some(value: T)

  /** The outcome of an operation that may throw: a value or the error it threw. */
  datatype Result<+T, +E> = Success(value: T) | Failure(error: E)
}
