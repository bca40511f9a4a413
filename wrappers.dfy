/** A value that may be absent: a missing request field, a row a query did not find. */
module Wrappers {

  datatype Option<+T> = None | Some(value: T)
}
