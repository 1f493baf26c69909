/** Optional values: the model's rendering of a query's `.first()` that may find nothing. */
module Wrappers {

  datatype Option<+T> = None | Some(value: T)

}
