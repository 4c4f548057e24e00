/** Option, for a lookup or a match that may find nothing. */
module Wrappers {

  datatype Option<+T> = None | Some(value: T)
}
