/** The optional-value datatype used for native pointers and for "no exception". */
module Wrappers {

  datatype Option<+T> = None | Some(value: T)
}
