/** Optional values and results, used where the JavaScript source has null or throws. */
module Wrappers {

  /** A value that may be absent, as `null` is in the source. */
  datatype Option<+T> = None | Some(value: T)

  /** A computation that either produced a value or threw an error. */
  datatype Result<+R, +E> = Success(value: R) | Failure(error: E)
}
