/** Failure-compatible result types shared by the modules of the model. */
module Wrappers {

  datatype Option<+T> = None | Some(value: T)

  /** The outcome of an operation that may abort: its value, or the reason it aborted. */
  datatype Result<+R, +E> = Success(value: R) | Failure(error: E)
}
