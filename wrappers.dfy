/** Optional values, used for cache lookups and optional widget records. */
module Wrappers {
  datatype Option<+T> = None | Some(value: T)
}
