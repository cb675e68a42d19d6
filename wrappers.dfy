/** Failure-carrying result types shared by the whole model. */
module Wrappers {

  /** A value that may be absent: Python's `None` or a present value. */
  datatype Option<+T> = None | Some(value: T)

  /** A computation that either produced a value or raised an error. */
  datatype Result<+T, +E> = Success(value: T) | Failure(error: E)

  /** A computation without a value that either completed or raised an error. */
  datatype Outcome<+E> = Pass | Fail(error: E)
}
