/** Option type standing in for Go's nil-able pointers. */
module Wrappers {

  /** `None` plays the role of a nil pointer, `Some(v)` of a non-nil one. */
  datatype Option<+T> = None | Some(value: T)
}
