/** Small failure-carrying datatypes shared by the whole model. */
module Wrappers {

  datatype Option<+T> = None | Some(value: T)

  /** A Go `error` value, reduced to the text its `Error()` method returns. */
  datatype Error = Error(message: string)

  /** A Go `(value, error)` pair in which exactly one half is meaningful. */
  datatype Result<+T> = Success(value: T) | Failure(error: Error)
}
