/** Outcome of an operation that can raise a Python exception. */
module Results {
  datatype Result<T, E> = Success(value: T) | Failure(error: E)
}
