/** Optional values (JavaScript's `null`/`undefined`) and success-or-error results. */
module Wrappers {

  datatype Option<+T> = None | Some(value: T)

  datatype Result<+R, +E> = Success(value: R) | Failure(error: E)
}
