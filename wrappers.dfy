/** Optional values: an absent JSON field, a query that matched nothing. */
module Wrappers {

  datatype Option<+T> = None | Some(value: T)
}
