/** Optional values and success-or-failure results. */
module Wrappers {

  /** A value that may be absent (a missing JSON key, a missing file). */
  datatype Option<+T> = None | Some(value: T)

  /** The outcome of an operation that may raise: its value, or the raised message. */
  datatype Result<+T, +E> = Success(value: T) | Failure(error: E)
}
