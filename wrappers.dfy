/** Optional values: the model's stand-in for `null` and for "no callback fired". */
module Wrappers {

  datatype Option<+T> = None | Some(value: T)
}
