/** The optional value used for properties that JavaScript leaves undefined. */
module Wrappers {

  datatype Option<+T> = None | Some(value: T)
}
