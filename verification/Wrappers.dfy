/** Shared by the other modules. */
module Wrappers {
  datatype Option<+V> = None | Some(value: V)
}
