/** Failure-carrying values used in place of Java's exceptions. */
module Wrappers {

  datatype Option<+T> = None | Some(value: T)

  /** Either a value or the exception that ended the operation. */
  datatype Result<+R, +E> = Success(value: R) | Failure(error: E)

  /** A check that either passes or fails with an exception. */
  datatype Outcome<+E> = Pass | Fail(error: E)
}
