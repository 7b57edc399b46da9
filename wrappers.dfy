/** Option and Result, the failure-carrying values used throughout the model. */
module Wrappers {

  datatype Option<+T> = None | Some(value: T)

  /** A value, or the message of the error that the TypeScript code throws or returns instead. */
  datatype Result<+R> = Success(value: R) | Failure(error: string)
}
