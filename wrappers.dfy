/** Option and Result wrappers shared by every module of the model. */
module Wrappers {

  /** Swift's `Optional`: `None` is `nil`, absence of a value. */
  datatype Option<+T> = None | Some(value: T)

  /** The outcome of a throwing Swift initializer: a value or the thrown error. */
  datatype Result<+R, +E> = Success(value: R) | Failure(error: E)
}
