/** Failure-compatible wrappers shared by the whole model. */
module Wrappers {

  /** A value that may be absent: an unset out-parameter, a missing result. */
  datatype Option<+T> = None | Some(value: T)

  /** The outcome of an operation that either succeeds or reports an error message. */
  datatype Result<+T> = Ok(value: T) | Err(message: string)
}
