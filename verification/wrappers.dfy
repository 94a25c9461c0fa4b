/** The Option and Result datatypes used throughout the model. */
module Wrappers {

  /** A value that may be absent: a dictionary lookup or a conversion that can fail. */
  datatype Option<+T> = None | Some(value: T)

  /** The outcome of a pipeline stage: a value, or the exception that would end the run. */
  datatype Result<+T, +E> = Success(value: T) | Failure(error: E)
}
