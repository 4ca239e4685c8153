/** Optional values and the two ways an operation of the strategy can end. */
module Wrappers {

  /** Stands for a Java reference that may be null. */
  datatype Option<+T> = None | Some(value: T)

  /** A value, or the exception the Java code would throw instead of returning it. */
  datatype Result<+R, +E> = Success(value: R) | Failure(error: E)

  /** Normal completion, or the exception the Java code would throw. */
  datatype Outcome<+E> = Pass | Fail(error: E)
}
