/** The absence of a value, where the source has a null pointer or a zero id. */
module Wrappers {
  datatype Option<+T> = None | Some(value: T)
}
