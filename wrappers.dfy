/** Optional values, the model's counterpart of Swift's `Optional`. */
module Wrappers {

  datatype Option<+T> = None | Some(value: T)
}
