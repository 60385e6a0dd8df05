/** Option and Result values used for the Go code's nil values and (value, err) returns. */
module Results {

  datatype Option<+T> = None | Some(value: T)

  /** A value, or the error that ended the computation. */
  datatype Result<+T, +E> = Success(value: T) | Failure(error: E)
}
