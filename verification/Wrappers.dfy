/** The optional value used for null table pointers, free locks and `npos` entries. */
module Wrappers {
  datatype Option<+T> = None | Some(value: T)
}
