/** Optional values: a prop or DOM lookup that may be absent. */
module Wrappers {
  datatype Option<+T> = None | Some(value: T)
}
