/** Helper datatypes for operations that may produce no value or raise. */
module Wrappers {

  /** A value that may be absent, used for a construction that can raise. */
  datatype Option<+T> = None | Some(value: T)

  /** The result of an operation that returns nothing or raises `error`. */
  datatype Outcome<+E> = Pass | Fail(error: E)
}
