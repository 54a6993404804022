/** Failure-carrying values used throughout the model: `Option` for JavaScript's
    `undefined`/`null` results, `Result` for calls that may throw, `Outcome` for
    handlers that either return normally or throw. */
module Wrappers {

  datatype Option<+T> = None | Some(value: T)

  datatype Result<+T, +E> = Success(value: T) | Failure(error: E)

  datatype Outcome<+E> = Pass | Fail(error: E)
}
