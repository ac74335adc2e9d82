/** The two failure-compatible types that the other modules share. */
module Wrappers {

  /** A value that may be nil, or a step that may not be enabled. */
  datatype Option<+T> = None | Some(value: T)

  /** A Go `(value, error)` pair; the error text is not modelled. */
  datatype Result<+T> = Ok(value: T) | Err
}
