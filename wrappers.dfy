/** Nullable values and error returns of the Java API, as datatypes. */
module Wrappers {

  /** A Java reference that may be null: `None` stands for null. */
  datatype Option<+T> = None | Some(value: T)

  /** The outcome of a call that may throw: `Failure` carries the exception. */
  datatype Result<+R, +E> = Success(value: R) | Failure(error: E)
}
