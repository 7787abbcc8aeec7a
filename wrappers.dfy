/** Optional values, for results that may be absent (a read that failed, an oracle that reported an error). */
module Wrappers {

  datatype Option<+T> = None | Some(value: T)
}
