/** Option and Result, the two shapes Go's `(value, error)` and `(value, ok)` returns take here. */
module Wrappers {

  datatype Option<+T> = None | Some(value: T)

  datatype Result<+R, +E> = Success(value: R) | Failure(error: E)
}
