/** Optional values: PHP's `null` for a field or an array slot that is not set. */
module Wrappers {

  datatype Option<+T> = None | Some(value: T)
}
