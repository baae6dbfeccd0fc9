/** Optional values: JavaScript's `undefined` for a field or object that may be missing. */
module Wrappers {
  datatype Option<+T> = None | Some(value: T)
}
