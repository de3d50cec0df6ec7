/** Optional values: a query parameter that may be absent, a session that may not be opened. */
module Wrappers {
  datatype Option<+T> = None | Some(value: T)
}
