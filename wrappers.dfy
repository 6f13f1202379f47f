/** Optional values, for the source's `None` / `null`. */
module Wrappers {

  datatype Option<+T> = None | Some(value: T)
}
