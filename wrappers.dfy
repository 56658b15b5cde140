/** The optional value used for Python's "raises" and "not found" outcomes. */
module Wrappers {
  datatype Option<T> = None | Some(value: T)
}
