/** Option and Result, the wrappers the rest of the model uses. */
module Wrappers {

  /** `null` / `undefined` in the application become `None`. */
  datatype Option<+T> = None | Some(value: T)

  /** The outcome of a validation: a value, or the reason it was refused. */
  datatype Result<+R, +E> = Success(value: R) | Failure(error: E)
}
