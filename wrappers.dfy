/** Optional values, standing for Ruby's `nil` and JavaScript's `undefined`. */
module Wrappers {

  datatype Option<+T> = None | Some(value: T)
}
