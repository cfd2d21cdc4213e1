/** Option, Result and Outcome: the datatypes the JDBC model and the tailer share. */
module Wrappers {

  /** A value or nothing; stands in for a Java reference that may be null. */
  datatype Option<T> = None | Some(value: T)

  /** The value a Java call returns, or the checked exception it throws instead. */
  datatype Result<T, E> = Success(value: T) | Failure(error: E)

  /** A void Java call that either returns normally or throws. */
  datatype Outcome<E> = Pass | Fail(error: E)
}
