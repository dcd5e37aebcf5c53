/** Failure-carrying values shared by the other modules. */
module Results {

  /** A value that may be missing: Python's `None` result of a helper. */
  datatype Option<+T> = None | Some(value: T)

  /** A value or the exception the Python code would raise instead. */
  datatype Result<+T, +E> = Ok(value: T) | Err(error: E)
}
