/** The optional-value datatype shared by the other modules. */
module Wrappers {

  /** A value that may be absent, like Python's `Optional[T]`. */
  datatype Option<+T> = None | Some(value: T)
}
