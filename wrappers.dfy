/** The optional value used for nullable handles and for parse results. */
module Wrappers {

  datatype Option<+T> = None | Some(value: T)
}
