/** Failure-carrying return values shared by the client and the counter. */
module Wrappers {

  /** A value that may be absent. */
  datatype Option<+T> = None | Some(value: T)

  /** A Go `(value, error)` pair where exactly one side is meaningful. */
  datatype Result<+R, +E> = Success(value: R) | Failure(error: E)

  /** Errors are carried as their message; the store's errors are passed through unchanged. */
  type Error = string
}
