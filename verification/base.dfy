/** Failure-carrying wrappers shared by the whole model. */
module Base {

  /** A value that may be absent (Python's None). */
  datatype Option<T> = None | Some(value: T)

  /** The outcome of an operation that the source rejects with a warning instead of raising. */
  datatype Result<T, E> = Ok(value: T) | Err(error: E)
}
