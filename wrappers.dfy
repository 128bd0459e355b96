/** Optional values: a SQL column that may hold NULL, a lookup that may find no row. */
module Wrappers {

  datatype Option<+T> = None | Some(value: T)
}
