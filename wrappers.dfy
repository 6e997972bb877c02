/** Option and Result, used by every module for Python's `None` and for the
    exceptions and error strings that the scripts raise or return. */
module Wrappers {

  datatype Option<+T> = None | Some(value: T)

  datatype Result<+T, +E> = Success(value: T) | Failure(error: E)
}
