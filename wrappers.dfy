/** Optional values, used for lookups and parsers that may fail. */
module Wrappers {

  datatype Option<+T> = None | Some(value: T)
}
