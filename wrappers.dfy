/** Optional values, standing in for PHP's nullable returns. */
module Wrappers {

  datatype Option<+T> = None | Some(value: T)
}
