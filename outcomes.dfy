/** The outcome of a step of the generator that Python may abort with an exception, and optional values. */
module Outcomes {
  datatype Result<T> = Success(value: T) | Failure(error: string)

  datatype Option<T> = None | Some(value: T)
}
