/** Failure-carrying wrappers shared by every module of the model. */
module Base {

  /** Python's `None` versus a present value. */
  datatype Option<+T> = None | Some(value: T)

  /** A computation that either produced a value or raised an exception. */
  datatype Result<+R, +E> = Success(value: R) | Failure(error: E)
}
