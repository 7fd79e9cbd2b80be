/** Optional values: JavaScript's `undefined` / `null` where the component stores or derives one. */
module Wrappers {
  datatype Option<+T> = None | Some(value: T)
}
