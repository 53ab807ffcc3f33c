/** Optional values: JavaScript's `undefined` / `null` / an absent key. */
module Wrappers {

  datatype Option<+T> = None | Some(value: T)
}
