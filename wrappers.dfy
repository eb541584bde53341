/** Optional values, standing in for JavaScript's null / undefined on nullable fields. */
module Wrappers {

  datatype Option<+T> = None | Some(value: T)
}
