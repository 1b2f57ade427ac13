/** Option and Result, the two failure-carrying wrappers the model uses. */
module Results {

  datatype Option<+T> = None | Some(value: T)

  /** The outcome of a step that either produces a value or throws `error`. */
  datatype Result<+T, +E> = Ok(value: T) | Err(error: E)
}
