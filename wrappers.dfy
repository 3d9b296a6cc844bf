/** The Some/None and Ok/Err wrappers used for nullable fields and for error returns. */
module Wrappers {

  /** A Go pointer that may be nil, or a value that may be absent. */
  datatype Option<T> = None | Some(value: T)

  /** A Go `(value, error)` pair in which only one side is meaningful. */
  datatype Result<T, E> = Ok(value: T) | Err(error: E)
}
