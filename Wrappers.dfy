/** Small failure-carrying datatypes shared by the three models. */
module Wrappers {

  /** A value that may be absent: Python's `None` or a real object. */
  datatype Option<+T> = None | Some(value: T)

  /** The outcome of an operation that either completes or raises an error. */
  datatype Outcome<+E> = Pass | Fail(error: E)
}
