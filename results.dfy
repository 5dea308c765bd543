/** Optional values and results, the two sum types every handler outcome is built from. */
module Results {

  /** An optional value (Rust's `Option`). */
  datatype Option<+T> = None | Some(value: T)

  /** A success or a failure (Rust's `Result`). */
  datatype Result<+T, +E> = Ok(value: T) | Err(error: E)
}
