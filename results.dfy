/** Failure-carrying values: how the model returns what Python raises. */
module Results {

  datatype Option<T> = None | Some(value: T)

  /** A value, or the exception that was raised instead. */
  datatype Result<T, E> = Ok(value: T) | Err(error: E)

  /** A call that returns nothing, or the exception it raised. */
  datatype Outcome<E> = Pass | Fail(error: E)
}
