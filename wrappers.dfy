/** Optional values and pass/fail outcomes shared by the other modules. */
module Wrappers {

  /** A value that may be missing (Python's None). */
  datatype Option<+T> = None | Some(value: T)

  /** The outcome of a validation: it passes, or fails with an error. */
  datatype Outcome<+E> = Pass | Fail(error: E)
}
