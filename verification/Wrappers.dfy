/** Optional values: a C pointer that may be NULL, a PHP argument that may be omitted. */
module Wrappers {
  datatype Option<+T> = None | Some(value: T)
}
