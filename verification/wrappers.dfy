/** Optional values and results with an error payload, used wherever the
    Python code returns None, raises, or returns an error string. */
module Wrappers {

  datatype Option<+T> = None | Some(value: T)

  datatype Result<+R, +E> = Success(value: R) | Failure(error: E)
}
