/** The outcome of an operation that the Go code reports through an `error` value. */
module Results {

  datatype Result<+T, +E> = Ok(value: T) | Err(error: E)
}
