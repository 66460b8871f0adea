/** Optional values: the script's `None`. */
module Wrappers {
  datatype Option<+T> = None | Some(value: T)
}
