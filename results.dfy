/** Failure-carrying values used in place of Go's `(value, error)` and `(value, found)` returns. */
module Results {

  /** A value that may be missing, as a map lookup's `(value, found)` pair. */
  datatype Option<+T> = None | Some(value: T)

  /** Either a value or the error that stopped its computation. */
  datatype Result<+T, +E> = Success(value: T) | Failure(error: E)

  /** A Go `error` result: nil (Pass) or an error. */
  datatype Outcome<+E> = Pass | Fail(error: E)
}
