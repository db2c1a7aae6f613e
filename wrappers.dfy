/** Optional values: a row that may be absent, a request field that may be missing. */
module Wrappers {

  datatype Option<+T> = None | Some(value: T)
}
