/** Failure-carrying results. A `Failure`/`Fail` value stands for a call of
    `_orionThrowError`, which prints the error and exits the process: no
    caller ever continues after it. */
module Wrappers {

  datatype Option<+T> = None | Some(value: T)

  /** Outcome of an operation that returns a value or stops with an error. */
  datatype Result<+R, +E> = Success(value: R) | Failure(error: E)

  /** Outcome of an operation that returns nothing or stops with an error. */
  datatype Outcome<+E> = Pass | Fail(error: E)
}
