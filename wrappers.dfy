/** Optional values, used where the source leaves an out-parameter unwritten or a lookup fails. */
module Wrappers {
  datatype Option<T> = None | Some(value: T)
}
