/** Optional values: a missing request argument, a session key that is not set,
    a row that was not found. */
module Wrappers {

  datatype Option<+T> = None | Some(value: T)
}
