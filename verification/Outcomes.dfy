/** Absent values and failed operations. */
module Outcomes {

  datatype Option<+T> = None | Some(value: T)

  /** Failure carries the message of the error thrown. */
  datatype Result<+T> = Success(value: T) | Failure(error: string)
}
