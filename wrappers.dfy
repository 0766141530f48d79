/** The Option and Result datatypes shared by the modules of this model. */
module Wrappers {

  /** A value that may be absent: stands for a Java reference that may be null. */
  datatype Option<+T> = None | Some(value: T)

  /** Either a value or the error that the source would have thrown instead. */
  datatype Result<+T, +E> = Success(value: T) | Failure(error: E)
}
