/** Optional values and success/failure outcomes used across the model. */
module Results {

  /** A value that may be absent, the model of Python's `X | None`. */
  datatype Option<+T> = None | Some(value: T)

  /** The outcome of an operation that raises instead of returning. */
  datatype Result<+T, +E> = Success(value: T) | Failure(error: E)
}
