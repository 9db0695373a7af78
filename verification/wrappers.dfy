/** Failure-compatible wrappers shared by the model: a C# reference that may be
    null becomes an Option, an operation that may throw returns an Outcome. */
module Wrappers {

  /** A value that may be absent (a null reference in the source). */
  datatype Option<+T> = None | Some(value: T)

  /** Success, or the exception an operation threw. */
  datatype Outcome<+E> = Pass | Fail(error: E)
}
