/** A value that may be missing, for the outcome of external reads. */
module Wrappers {
  datatype Option<T> = None | Some(value: T)
}
