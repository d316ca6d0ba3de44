/** The optional value used for "raised or not" and for absent tags. */
module Wrappers {

  datatype Option<+T> = None | Some(value: T)
}
