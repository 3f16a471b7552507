/** Failure-compatible wrappers used for JavaScript's `undefined`/`null` and thrown errors. */
module Wrappers {

  /** A value that may be absent (`undefined` or `null` in the source). */
  datatype Option<+T> = None | Some(value: T)

  /** The value of an operation that either returns or throws. */
  datatype Result<+R, +E> = Success(value: R) | Failure(error: E)

  /** The outcome of an operation that returns nothing or throws. */
  datatype Outcome<+E> = Pass | Fail(error: E)
}
