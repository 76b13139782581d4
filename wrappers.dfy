/** Optional values, for lookups that may find nothing (`.first()` returning None). */
module Wrappers {

  datatype Option<+T> = None | Some(value: T)
}
