/** Failure-carrying datatypes shared by the installer's modules. */
module Wrappers {

  /** A value that may be absent; also stands for a JSON value that may be `null`. */
  datatype Option<+T> = None | Some(value: T)

  /** A computed value or the error that stopped its computation. */
  datatype Result<+T, +E> = Success(value: T) | Failure(error: E)

  /** The outcome of a step that yields no value: it passed, or it failed with an error. */
  datatype Outcome<+E> = Pass | Fail(error: E)
}
