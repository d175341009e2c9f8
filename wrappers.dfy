/** Error and optional-value types shared by every module of the model. */
module Wrappers {

  /** A Go `error`: only its message is observable to the model. */
  datatype Error = Error(message: string)

  datatype Option<+T> = None | Some(value: T)

  /** A Go `(value, error)` pair in which exactly one side is meaningful. */
  datatype Result<+T> = Success(value: T) | Failure(error: Error)
}
