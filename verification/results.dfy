/** Failure-carrying datatypes shared by the rest of the model. */
module Results {

  /** A value that may be missing (Go's `v, ok := ...` with `ok == false`). */
  datatype Option<+T> = None | Some(value: T)

  /** Either a value or an error (Go's `(T, error)` return pair). */
  datatype Result<+T, +E> = Ok(value: T) | Err(error: E)
}
