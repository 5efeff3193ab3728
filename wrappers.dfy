/** Optional values: a JavaScript value that may be `null`, `undefined` or otherwise falsy. */
module Wrappers {

  datatype Option<+T> = None | Some(value: T)
}
