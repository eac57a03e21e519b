/** Optional values: a field of the custom-stats record that may be left out. */
module Wrappers {

  datatype Option<+T> = None | Some(value: T)
}
