/** Small result types shared by the modules of this project. */
module Wrappers {

  /** A value that may be absent: Go's `(value, ok)` pairs and nil pointers. */
  datatype Option<+T> = None | Some(value: T)

  /** The outcome of a Go function that returns only an `error`. */
  datatype Outcome = Pass | Fail(message: string)
}
