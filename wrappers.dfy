/** Optional values and error-carrying results, used for Python's `None` and for
    the HTTP errors the endpoints raise. */
module Wrappers {

  datatype Option<+T> = None | Some(value: T)

  datatype Result<+R, +E> = Success(value: R) | Failure(error: E)
}
