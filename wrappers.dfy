/** Optional values: a query that may find no row (`fetchone()` returning None). */
module Wrappers {

  datatype Option<+T> = None | Some(value: T)
}
