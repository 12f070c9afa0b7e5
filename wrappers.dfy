/** Optional values: the model's rendering of `null`, `undefined` and absent keys. */
module Wrappers {

  datatype Option<+T> = None | Some(value: T)
}
