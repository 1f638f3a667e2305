/** Optional values. In this model `None` also stands for JavaScript's NaN. */
module Wrappers {

  datatype Option<+T> = None | Some(value: T)
}
