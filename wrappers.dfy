/** Optional values: the outcome of an upstream call (None when the call threw),
    a query parameter that may be absent, a parse that may yield NaN. */
module Wrappers {

  datatype Option<T> = None | Some(value: T)
}
