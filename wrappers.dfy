/** Failure-compatible result types shared by the modules of the bootstrap model. */
module Wrappers {

  datatype Option<+T> = None | Some(value: T)

  /** A value, or the exception a Python call raised instead of returning one. */
  datatype Result<+R, +E> = Success(value: R) | Failure(error: E)

  /** The outcome of a computation that returns nothing: it ran to the end or raised. */
  datatype Outcome<+E> = Pass | Fail(error: E)
}
