/** The error kind the core raises, and a result that is either a value or that error. */
module Results {

  /** The only exception the core throws: `std::invalid_argument`, with its message. */
  datatype Error = InvalidArgument(message: string)

  datatype Result<T> = Success(value: T) | Failure(error: Error)

  /** The outcome of an operation that returns nothing when it succeeds. */
  datatype Outcome = Pass | Fail(error: Error)
}
