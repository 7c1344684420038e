/** Failure-carrying values that stand in for the exceptions the ledger and the
    registry raise: each operation returns its error instead of throwing it. */
module Results {

  /** A value, or the error that prevented computing it. */
  datatype Result<T, E> = Ok(value: T) | Err(error: E)

  /** The outcome of an operation that returns nothing on success. */
  datatype Outcome<E> = Pass | Fail(error: E)

  datatype Option<T> = None | Some(value: T)
}
