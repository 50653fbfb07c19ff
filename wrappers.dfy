/** The optional value used for the nullable reference parameters of the model. */
module Wrappers {

  datatype Option<+T> = None | Some(value: T)
}
