/** Optional values and error-carrying results used throughout the model. */
module Results {

  /** A value that may be absent. */
  datatype Option<+T> = None | Some(value: T)

  /** Either a value or the error that stopped the operation. */
  datatype Result<+T, +E> = Success(value: T) | Failure(error: E)
}
