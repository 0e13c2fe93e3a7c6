/** Optional values and error-carrying results, used wherever the Go code
    returns a nil-able value or a `(value, error)` pair. */
module Wrappers {

  datatype Option<+T> = None | Some(value: T)

  datatype Result<+T, +E> = Success(value: T) | Failure(error: E)
}
