/** The optional value used wherever the C code has "no message", "no station" or an unset field. */
module Wrappers {

  datatype Option<+T> = None | Some(value: T)
}
