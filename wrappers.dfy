/** The optional value used for lookups and for the storage slot. */
module Wrappers {

  datatype Option<+T> = None | Some(value: T)
}
