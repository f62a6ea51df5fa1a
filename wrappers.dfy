/** Optional values, used for lookups that may find nothing and for
    operations whose outcome is either a value or a failure. */
module Wrappers {
  datatype Option<+T> = None | Some(value: T)
}
