/** Failure-compatible result types used in place of Python's raised exceptions. */
module Wrappers {

  /** A value that may be absent (Python's `None`). */
  datatype Option<+T> = None | Some(value: T)

  /** Either a value, or the error an operation raised instead of returning one. */
  datatype Result<+R, +E> = Success(value: R) | Failure(error: E)

  /** An operation that returns nothing of interest, or raises an error. */
  datatype Outcome<+E> = Pass | Fail(error: E)
}
