/** Optional values, standing for Python's `None` and for dictionary keys that may be absent. */
module Wrappers {

  datatype Option<+T> = None | Some(value: T)
}
