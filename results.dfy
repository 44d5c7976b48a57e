/** Failure-carrying values shared by the modules of the model. */
module Results {

  /** A value, or the exception that was raised instead of producing it. */
  datatype Result<+T, +E> = Ok(value: T) | Err(error: E)
}
