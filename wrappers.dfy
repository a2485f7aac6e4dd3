/** The optional value used for nullable references. */
module Wrappers {

  datatype Option<+T> = None | Some(value: T)
}
