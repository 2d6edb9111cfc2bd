/** Optional values, for Swift optionals and for operations that trap. */
module Wrappers {
  datatype Option<+T> = None | Some(value: T)
}
