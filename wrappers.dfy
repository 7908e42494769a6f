/** Optional values and results, standing in for Go's nil pointers, nil
    errors and `(value, error)` return pairs. */
module Wrappers {

  /** `None` plays Go's `nil`; for an `error` return, `None` is success. */
  datatype Option<+T> = None | Some(value: T)

  /** A Go `(value, err)` pair where exactly one side is meaningful. */
  datatype Result<+T, +E> = Success(value: T) | Failure(error: E)
}
