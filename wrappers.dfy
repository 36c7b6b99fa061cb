module Wrappers {
  /** A value that may be missing: Python's `None` or a present value. */
  datatype Option<+T> = None | Some(value: T)
}
