/** Optional values: JavaScript's `undefined` / `null` and absent request fields. */
module Wrappers {

  datatype Option<+T> = None | Some(value: T)
}
