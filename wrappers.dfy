/** The absent-or-present value that stands for JavaScript's `null`-able fields. */
module Wrappers {
  datatype Option<+T> = None | Some(value: T)
}
