/** Optional values: an `options` argument that may be absent, an `err` that may be null. */
module Wrappers {

  datatype Option<+T> = None | Some(value: T)
}
