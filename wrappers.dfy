/** Optional values: JavaScript's `null` (or a missing value) versus a present one. */
module Wrappers {
  datatype Option<+T> = None | Some(value: T)
}
