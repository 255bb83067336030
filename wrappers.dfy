/** Option and Result: Python's `None`, and an exception or error return. */
module Wrappers {

  datatype Option<+T> = None | Some(value: T)

  /** A successful value, or the error an operation raised. */
  datatype Result<+R, +E> = Success(value: R) | Failure(error: E)
}
