/** Optional values, used where the Python code returns `None` or may be absent. */
module Wrappers {
  datatype Option<+T> = None | Some(value: T)
}
