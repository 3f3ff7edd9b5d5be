/** Small failure-compatible wrappers shared by the other modules. */
module Wrappers {

  /** A value that may be absent. */
  datatype Option<+T> = None | Some(value: T)

  /** The outcome of a library call that can report an error. */
  datatype Result<+T> = Ok(value: T) | Err(error: string)
}
