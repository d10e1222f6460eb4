/** Optional values, used for `None`-able globals and arguments. */
module Wrappers {
  datatype Option<+T> = None | Some(value: T)
}
