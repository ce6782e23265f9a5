/** Failure-compatible value wrappers shared by the other modules. */
module Wrappers {

  /** An optional value: an absent field, a query that found nothing. */
  datatype Option<+T> = None | Some(value: T)

  /** The outcome of an operation that yields a value or an error. */
  datatype Result<+T, +E> = Success(value: T) | Failure(error: E)

  /** The outcome of an operation that yields no value. */
  datatype Outcome<+E> = Pass | Fail(error: E)
}
