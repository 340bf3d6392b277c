/** A value or the error code returned instead. */
module Results {
  datatype Result<+T, +E> = Ok(value: T) | Err(errno: E)
}
