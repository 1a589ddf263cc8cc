/** Option, Result and Outcome: the shapes the model uses for Java's null, thrown exceptions and void calls that may throw. */
module Wrappers {

  datatype Option<+T> = None | Some(value: T)

  datatype Result<+R, +E> = Success(value: R) | Failure(error: E)

  /** The result of a Java `void` call: it returns normally or throws `error`. */
  datatype Outcome<+E> = Pass | Fail(error: E)
}
