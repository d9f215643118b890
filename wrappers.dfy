/** An optional value: a formatter that may be unset, a label that may not read back. */
module Wrappers {
  datatype Option<+T> = None | Some(value: T)
}
