/** Absence and failure values shared by the whole model. */
module Wrappers {

  /** A value that may be absent (Python's `None`, a NaN marker, a NULL handle). */
  datatype Option<+T> = None | Some(value: T)

  /** The outcome of an operation that either yields a value or reports an error. */
  datatype Result<+T, +E> = Ok(value: T) | Err(error: E)
}
