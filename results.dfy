/** Failure-carrying return types used in place of the source's exceptions and nulls. */
module Results {

  datatype Option<+T> = None | Some(value: T)

  datatype Result<+T, +E> = Success(value: T) | Failure(error: E)

  /** The outcome of a check that returns nothing on success and throws on failure. */
  datatype Outcome<+E> = Pass | Fail(error: E)
}
