/** Failure-carrying wrappers shared by the other modules. */
module Results {

  /** A value that may be missing. */
  datatype Option<T> = None | Some(value: T)

  /** The outcome of an operation that can raise an error instead of returning. */
  datatype Result<T, E> = Success(value: T) | Failure(error: E)
}
