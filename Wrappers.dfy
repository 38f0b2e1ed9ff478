/** The optional value used for a parent link that may be absent. */
module Wrappers {

  datatype Option<+T> = None | Some(value: T)
}
