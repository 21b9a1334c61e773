/** The optional result of a search. */
module Wrappers {

  datatype Option<+T> = None | Some(value: T)
}
