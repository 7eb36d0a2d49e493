/** Option and Result, the two failure-aware wrappers the model uses. */
module Wrappers {

  /** `None` is JavaScript's `undefined`: a value that is absent, never the JSON `null`. */
  datatype Option<+T> = None | Some(value: T)

  /** The outcome of a call that may throw before doing anything. */
  datatype Result<+T, +E> = Ok(value: T) | Err(error: E)
}
