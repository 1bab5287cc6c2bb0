/** The optional value used where the modelled code may or may not have a result. */
module Wrappers {

  datatype Option<+T> = None | Some(value: T)
}
