/** Option, Result and Outcome: the values Java expresses with null and with thrown exceptions. */
module Wrappers {

  /** A value that Java may leave null. */
  datatype Option<+T> = None | Some(value: T)

  /** A call that either returns a value or throws an exception of kind E. */
  datatype Result<+R, +E> = Success(value: R) | Failure(error: E)

  /** A void call that either returns normally or throws an exception of kind E. */
  datatype Outcome<+E> = Pass | Fail(error: E)
}
