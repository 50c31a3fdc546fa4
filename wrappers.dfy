/** Failure-carrying datatypes shared by the modules of this project. */
module Wrappers {

  /** A value that may be absent: JavaScript's `undefined` or `null`. */
  datatype Option<+T> = None | Some(value: T)

  /** The outcome of a check that either passes or fails with an error. */
  datatype Outcome<+E> = Pass | Fail(error: E)

  /** A computed value, or the error that was thrown instead. */
  datatype Result<+R, +E> = Success(value: R) | Failure(error: E)
}
