/** The optional value used for every Swift `Optional` in the model. */
module Wrappers {
  datatype Option<+T> = None | Some(value: T)
}
