module Wrappers {

  datatype Option<+T> = None | Some(value: T)

  /** The three errors a store method reports. */
  datatype Error = NotFound | Invalid | Conflict

  datatype Result<+T> = Success(value: T) | Failure(error: Error)
}
