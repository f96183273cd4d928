/** The optional value used for lookups and for a step's verdict. */
module Wrappers {
  datatype Option<+T> = None | Some(value: T)
}
