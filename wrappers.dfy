/** Option and Result, for JavaScript values that may be missing and for operations that throw. */
module Wrappers {

  /** A value that may be absent (`undefined`, `null` or `NaN` in the source). */
  datatype Option<+T> = None | Some(value: T)

  /** The outcome of an operation that either returns a value or throws an error carrying a message. */
  datatype Result<+T, +E> = Success(value: T) | Failure(error: E)
}
