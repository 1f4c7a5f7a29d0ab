/** Failure-compatible wrappers shared by the other modules. */
module Wrappers {

  /** A JSON value that may be `null` (or a nested object that may be absent). */
  datatype Option<+T> = None | Some(value: T)

  /** The value of a computation that may throw, with the reason it threw. */
  datatype Result<+T, +E> = Ok(value: T) | Err(error: E)
}
