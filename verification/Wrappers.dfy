/** Values that may be absent: nil pointers, failed parses, missing results. */
module Wrappers {
  datatype Option<+T> = None | Some(value: T)
}
