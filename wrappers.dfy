/** The optional value used for parse results and for "no break fired". */
module Wrappers {

  datatype Option<T> = None | Some(value: T)
}
