/** The optional value used wherever the page may hold nothing. */
module Wrappers {

  datatype Option<+T> = None | Some(value: T)
}
