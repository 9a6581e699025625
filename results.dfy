/** Failure-aware wrappers used in place of `null` returns and thrown errors. */
module Results {

  /** A value that may be absent: the model of a TypeScript `T | null`. */
  datatype Option<+T> = None | Some(value: T)

  /** The outcome of an operation that either succeeds or fails with an error kind. */
  datatype Result<+T, +E> = Ok(value: T) | Err(error: E)
}
