/** Small value wrappers shared by the other modules. */
module Wrappers {

  /** A value that may be absent: a C reference that may be NULL, a Python `None`. */
  datatype Option<T> = None | Some(value: T)
}
