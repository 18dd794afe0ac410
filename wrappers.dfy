/** Optional values, standing for Kotlin's nullable `String?`. */
module Wrappers {
  datatype Option<+T> = None | Some(value: T)
}
