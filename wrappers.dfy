/** Optional values and generation outcomes shared by the other modules. */
module Wrappers {

  datatype Option<+T> = None | Some(value: T)

  /** Either the generated value or the error that aborts the derive. */
  datatype Result<+T, +E> = Success(value: T) | Failure(error: E)
}
