/** Option and Result, the failure-carrying values shared by every module. */
module Wrappers {

  /** A value that may be absent: a nil pointer, a missing map entry. */
  datatype Option<+T> = None | Some(value: T)

  /** The value of a call that returns either a value or an error. */
  datatype Result<+T> = Success(value: T) | Failure(error: string)
}
