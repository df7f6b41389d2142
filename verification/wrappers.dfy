/** The optional value used wherever the modelled code may have nothing to give back. */
module Wrappers {

  datatype Option<+T> = None | Some(value: T)
}
