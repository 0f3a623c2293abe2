/** Optional values, for the fields a request or a channel description may lack. */
module Wrappers {

  datatype Option<+T> = None | Some(value: T)
}
