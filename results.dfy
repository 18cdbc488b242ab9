/** Failure-carrying values used across the model: Go's nil-able references
    and `(value, error)` return pairs. */
module Results {

  datatype Option<+T> = None | Some(value: T)

  datatype Result<+T, +E> = Ok(value: T) | Err(error: E)
}
