/** Option, Result and Outcome: the error paths of the Java code (an empty
    Optional, a thrown exception, a void call that may throw) as values. */
module Wrappers {

  datatype Option<+T> = None | Some(value: T)

  datatype Result<+R, +E> = Success(value: R) | Failure(error: E)

  /** The outcome of a Java `void` method: it returns normally or throws. */
  datatype Outcome<+E> = Pass | Fail(error: E)
}
