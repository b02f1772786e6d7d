/** The optional value used for the nullable state fields of the components. */
module Wrappers {
  datatype Option<+T> = None | Some(value: T)
}
