/** Failure-compatible wrappers shared by the modules of this project. */
module Wrappers {

  /** An optional value; for a Java reference, `None` stands for `null`. */
  datatype Option<+T> = None | Some(value: T)

  /** A computation that either produces a value or stops with an error. */
  datatype Result<+R, +E> = Success(value: R) | Failure(error: E)

  /** A computation that produces no value but may stop with an error. */
  datatype Outcome<+E> = Pass | Fail(error: E)
}
