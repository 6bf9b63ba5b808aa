/** Return values that carry a failure, standing in for the Python exceptions
    raised by the harness. */
module Results {
  datatype Option<+T> = None | Some(value: T)

  /** A value, or the exception raised instead of producing it. */
  datatype Result<+T, +E> = Ok(value: T) | Err(error: E)

  /** Completion without a value, or the exception raised. */
  datatype Outcome<+E> = Pass | Fail(error: E)
}
