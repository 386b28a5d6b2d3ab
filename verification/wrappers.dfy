/** Optional values, used where the page may have nothing to offer
    (an empty dropdown) or where parsing may fail. */
module Wrappers {

  datatype Option<+T> = None | Some(value: T)
}
