/** Optional values and pass/fail outcomes, standing in for Java's nullable references and exceptions. */
module Wrappers {

  /** A value that may be absent (a Java reference that may be `null`). */
  datatype Option<+T> = None | Some(value: T)

  /** The outcome of an operation that either completes or fails with an error. */
  datatype Outcome<+E> = Pass | Fail(error: E)
}
