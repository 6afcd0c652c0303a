/** Optional values: `None` stands for a JavaScript `undefined` or a missing Go value. */
module Wrappers {

  datatype Option<+T> = None | Some(value: T)
}
