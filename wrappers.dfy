/** Option and Result, the stand-ins for Go's nil-able pointers and (value, error) pairs. */
module Wrappers {

  /** A Go pointer or interface that may be nil: None is nil. */
  datatype Option<+T> = None | Some(value: T)

  /** A Go `(T, error)` pair in which exactly one side is meaningful. */
  datatype Result<+T, +E> = Ok(value: T) | Err(error: E)
}
