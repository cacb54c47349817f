/** Optional values and success-or-error results shared by the other modules. */
module Wrappers {

  /** A value that may be absent (`null` in the client). */
  datatype Option<+T> = None | Some(value: T)

  /** The outcome of an operation that either yields a value or fails. */
  datatype Result<+T, +E> = Success(value: T) | Failure(error: E)
}
