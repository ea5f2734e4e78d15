/** Failure-aware result types shared by the modules of this project. */
module Wrappers {

  /** A value that may be absent; stands for a Python slot that may hold `None`. */
  datatype Option<+T> = None | Some(value: T)

  /** The value an operation returns, or the exception it raises instead. */
  datatype Result<+T, +E> = Success(value: T) | Failure(error: E)

  /** An operation that returns nothing useful, or raises. */
  datatype Outcome<+E> = Pass | Fail(error: E)
}
