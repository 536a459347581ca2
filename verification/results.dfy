/** Failure-carrying wrappers shared by the other modules. */
module Results {

  /** Something that may be absent: Go's nil versus a present value. */
  datatype Option<+T> = None | Some(value: T)

  /** The outcome of a step that can fail: a value, or the error that aborted it. */
  datatype Result<+T, +E> = Success(value: T) | Failure(error: E)
}
