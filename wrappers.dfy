/** Failure-carrying values used across the model: an optional value (JavaScript's
    `undefined` or a value), a result that is a value or an error, and the outcome of an
    operation that returns nothing or fails. */
module Wrappers {

  datatype Option<+T> = None | Some(value: T)

  datatype Result<+T, +E> = Success(value: T) | Failure(error: E)

  datatype Outcome<+E> = Pass | Fail(error: E)
}
