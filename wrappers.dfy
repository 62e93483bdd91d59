/** The result of an operation that may fail, as Go's `(value, error)` pairs. */
module Wrappers {

  datatype Result<+T, +E> = Ok(value: T) | Err(error: E)
}
