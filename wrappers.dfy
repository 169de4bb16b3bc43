/** Optional values, used for absent JSON fields and absent storage keys. */
module Wrappers {
  datatype Option<+T> = None | Some(value: T)
}
