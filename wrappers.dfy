/** Optional values, used for absent configuration and for parses that can fail. */
module Wrappers {
  datatype Option<+T> = None | Some(value: T)
}
