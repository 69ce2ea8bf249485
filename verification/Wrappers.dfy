/** Values that may be absent, for nullable columns and for operations that can refuse. */
module Wrappers {
  datatype Option<+T> = None | Some(value: T)
}
