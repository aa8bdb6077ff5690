/** Failure-compatible wrappers used by the portfolio model: an optional
    value, and the outcome of an operation that can raise. */
module Wrappers {

  /** A value that may be absent (Python's `Optional`, with `None` for absent). */
  datatype Option<+T> = None | Some(value: T)

  /** The outcome of an operation that either succeeds with a value or
      raises an error. */
  datatype Result<+R, +E> = Success(value: R) | Failure(error: E)
}
