/** Optional values, used for configuration entries that may be absent. */
module Wrappers {

  datatype Option<+T> = None | Some(value: T)
}
