/** The optional value used for absent errors and a missing attachment. */
module Wrappers {

  datatype Option<+T> = None | Some(value: T)
}
