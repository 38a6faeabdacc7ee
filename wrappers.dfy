/** Optional values, used for absent request fields, patches and NaN. */
module Wrappers {

  datatype Option<+T> = None | Some(value: T)
}
