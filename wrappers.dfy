/** The optional value used for "not found" and "absent" throughout the model. */
module Wrappers {
  datatype Option<+T> = None | Some(value: T)
}
