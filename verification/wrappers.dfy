/** Optional values and success/failure results, used where the source has
    `null`/`undefined` or throws an exception. */
module Wrappers {

  /** A value that may be absent (`null` or `undefined` in the source). */
  datatype Option<+T> = None | Some(value: T)

  /** The outcome of an operation that either returns a value or throws an
      error carrying a message. */
  datatype Result<+R, +E> = Success(value: R) | Failure(error: E)
}
