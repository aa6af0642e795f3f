/** Failure-carrying values shared by the other modules. */
module Wrappers {

  /** A value that may be absent (Python's `None`). */
  datatype Option<+T> = None | Some(value: T)

  /** The outcome of a step that either produces a value or raises with a message. */
  datatype Result<+T> = Ok(value: T) | Err(error: string)
}
