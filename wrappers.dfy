/** Option and Result values used for missing data and for the error answers of the system. */
module Wrappers {

  /** A value that may be absent (Python's `None`). */
  datatype Option<T> = None | Some(value: T)

  /** A computed value or the error the original code answers with. */
  datatype Result<T, E> = Ok(value: T) | Err(error: E)
}
