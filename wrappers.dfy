/** Failure-carrying values shared by every module of the model. */
module Wrappers {

  datatype Option<+T> = None | Some(value: T)

  /** The outcome of a step that may raise a Python exception; `Failure`
      carries `str(e)` of the exception. */
  datatype Result<+R, +E> = Success(value: R) | Failure(error: E)
}
