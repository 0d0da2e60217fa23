/** The optional value used for storage reads that may find nothing. */
module Wrappers {
  datatype Option<+T> = None | Some(value: T)
}
