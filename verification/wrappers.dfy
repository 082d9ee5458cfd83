/** Small failure-carrying datatypes shared by the other modules. */
module Wrappers {

  /** A value that may be absent (Rust's `Option`, a JavaScript `null`). */
  datatype Option<+T> = None | Some(value: T)

  /** The outcome of a call that either returns normally or throws `error`. */
  datatype Outcome<+E> = Pass | Fail(error: E)
}
