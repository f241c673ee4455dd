/** The optional value used for partial operations (a number that may fail to parse). */
module Wrappers {

  datatype Option<+T> = None | Some(value: T)
}
