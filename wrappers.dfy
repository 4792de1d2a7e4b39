/** Failure-carrying results used across the model. */
module Wrappers {

  /** A value that may be absent (a parse that failed, an empty ledger). */
  datatype Option<+T> = None | Some(value: T)

  /** An operation that either succeeds with a value or fails with an error. */
  datatype Result<+R, +E> = Success(value: R) | Failure(error: E)
}
