/** The outcome of an operation that reports a diagnostic instead of a value. */
module Results {

  /** `Ok` carries the value; `Err` carries the message the operation writes
      to the error output (the caller then receives a default value). */
  datatype Result<+T> = Ok(value: T) | Err(message: string)
}
