/** A nullable value: a null pointer, an absent texture or an unset buffer. */
module Wrappers {

  datatype Option<+T> = None | Some(value: T)
}
