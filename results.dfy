/** Option and result datatypes shared by the other modules. */
module Results {

  /** A value that may be absent: JavaScript's `undefined` or `null` is `None`. */
  datatype Option<+T> = None | Some(value: T)

  /** The value of an operation that either returns or throws. */
  datatype Result<+T, +E> = Success(value: T) | Failure(error: E)

  /** The outcome of an operation that returns nothing or throws. */
  datatype Outcome<+E> = Pass | Fail(error: E)
}
