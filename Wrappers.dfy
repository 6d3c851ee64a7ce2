/** Optional values, for the fields and props the source may leave undefined. */
module Wrappers {
  datatype Option<+T> = None | Some(value: T)
}
