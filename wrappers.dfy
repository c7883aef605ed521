/** Optional values: the source's `None` for "no symbol consumed" and "no error". */
module Wrappers {
  datatype Option<+T> = None | Some(value: T)
}
