/** A value that may be absent: a nil pointer, a missing map entry, an empty one-slot channel. */
module Wrappers {
  datatype Option<+T> = None | Some(value: T)
}
