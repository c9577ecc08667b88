/** The optional value used wherever the source has a pointer that may be null. */
module Wrappers {
  datatype Option<T> = None | Some(value: T)
}
