/** A value that may be absent: nil pointers and absent map entries. */
module Wrappers {
  datatype Option<+T> = None | Some(value: T)
}
