/** The optional value used wherever the source leaves something unset. */
module Wrappers {

  datatype Option<+T> = None | Some(value: T)
}
