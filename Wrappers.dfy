/** Option, Outcome and Result: the values that stand for Java's null and its exceptions. */
module Wrappers {

  /** A value that may be absent (a Java reference that may be null). */
  datatype Option<+T> = None | Some(value: T)

  /** Pass, or a failure carrying an error (a void Java method that may throw). */
  datatype Outcome<+E> = Pass | Fail(error: E)

  /** A value, or a failure carrying an error (a Java method that returns or throws). */
  datatype Result<+R, +E> = Success(value: R) | Failure(error: E)
}
