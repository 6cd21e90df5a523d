/** Optional values and results, used for Go's `error` returns (nil or not)
    and for constructors that return `(value, error)`. */
module Wrappers {

  datatype Option<+T> = None | Some(value: T)

  datatype Result<+T, +E> = Success(value: T) | Failure(error: E)
}
