/** Failure-carrying wrappers shared by the modules of this model. */
module Wrappers {

  /** A value that may be absent; stands for JavaScript's `null`/`undefined` fields. */
  datatype Option<+T> = None | Some(value: T)

  /** The outcome of an operation that either yields a value or throws. */
  datatype Result<+T, +E> = Success(value: T) | Failure(error: E)

  /** The outcome of an operation that yields nothing or throws. */
  datatype Outcome<+E> = Pass | Fail(error: E)
}
