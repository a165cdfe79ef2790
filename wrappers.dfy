/** The optional value used for references that may be unset. */
module Wrappers {
  datatype Option<+T> = None | Some(value: T)
}
