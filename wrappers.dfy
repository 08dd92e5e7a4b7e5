/** Option and Result, the two failure-carrying wrappers the permission model uses. */
module Wrappers {

  /** A value that may be absent (Python's `Optional[...]`, with `None` as absence). */
  datatype Option<+T> = None | Some(value: T)

  /** The outcome of a call that either returns a value or raises an error. */
  datatype Result<+T, +E> = Ok(value: T) | Err(error: E)
}
