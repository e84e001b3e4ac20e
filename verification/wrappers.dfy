/** Optional values: a message field or a connection binding that may be absent. */
module Wrappers {

  datatype Option<+T> = None | Some(value: T)
}
