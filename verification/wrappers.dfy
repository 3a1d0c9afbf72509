/** Go's `(value, error)` pairs and nil references, as values. */
module Wrappers {

  /** A value that may be absent: a nil reference or a nil `error`. */
  datatype Option<+T> = None | Some(value: T)

  /** The outcome of a call that returns either a value or an error text. */
  datatype Result<+T, +E> = Ok(value: T) | Err(error: E)
}
