/** The optional value used where the model needs "a value or nothing". */
module Wrappers {

  datatype Option<+T> = None | Some(value: T)
}
