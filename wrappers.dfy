/** Optional values: a JavaScript field that may be absent from a record. */
module Wrappers {

  datatype Option<+T> = None | Some(value: T)
}
