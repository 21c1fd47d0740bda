/** Failure-compatible wrappers shared by the modules of this model. */
module Wrappers {

  /** A value that may be missing: Python's `None`, JavaScript's `null`. */
  datatype Option<+T> = None | Some(value: T)

  /** A computation that either yields a value or raises an error. */
  datatype Result<+T, +E> = Ok(value: T) | Err(error: E)
}
