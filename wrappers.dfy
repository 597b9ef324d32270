/** Optional values. The market-data code marks an undefined price with NaN;
    this model marks it with None instead. */
module Wrappers {

  datatype Option<+T> = None | Some(value: T)
}
