/** The optional value used where a decoder or a table lookup may find nothing. */
module Wrappers {
  datatype Option<+T> = None | Some(value: T)
}
