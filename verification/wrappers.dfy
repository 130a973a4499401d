/** Option and Result, the two failure-carrying shapes the model uses. */
module Wrappers {

  /** A value that may be missing, as Python's `None`. */
  datatype Option<+T> = None | Some(value: T)

  /** Either a value or the error the source raises instead. */
  datatype Result<+R, +E> = Success(value: R) | Failure(error: E)
}
