/** Optional values, for the references the source leaves null until set. */
module Wrappers {
  datatype Option<T> = None | Some(value: T)
}
