/** Optional values: a JavaScript `undefined` (or a value that was never set) is `None`. */
module Wrappers {
  datatype Option<+T> = None | Some(value: T)
}
