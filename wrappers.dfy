/** Failure-carrying wrappers used by the service model. */
module Wrappers {

  /** A value that may be absent (a Python attribute or index lookup that raises). */
  datatype Option<+T> = None | Some(value: T)

  /** The outcome of a request: a value, or the error that ends the request. */
  datatype Result<+R, +E> = Success(value: R) | Failure(error: E)
}
