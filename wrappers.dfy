/** The optional value used for fields that JSON may leave empty. */
module Wrappers {

  datatype Option<+T> = None | Some(value: T)
}
