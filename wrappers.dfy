/** Failure-compatible wrappers shared by the other modules. */
module Wrappers {

  /** A value that may be absent (a Go `nil` error, a failed parse). */
  datatype Option<+T> = None | Some(value: T)

  /** The outcome of a step that either produces a value or fails with a reason. */
  datatype Result<+T, +E> = Ok(value: T) | Err(error: E)
}
