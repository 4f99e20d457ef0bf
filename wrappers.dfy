/** Python's `None`, and the exceptions the core raises. */
module Wrappers {

  /** A value that may be Python's `None`. */
  datatype Option<+T> = None | Some(value: T)

  /** The outcome of a call that returns a value or raises. */
  datatype Result<+R, +E> = Success(value: R) | Failure(error: E)

  /** The outcome of a call that returns nothing useful or raises. */
  datatype Outcome<+E> = Pass | Fail(error: E)
}
