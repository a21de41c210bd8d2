/** The nullable-value wrapper used for SQL NULL columns and for lookups that may find nothing. */
module Wrappers {
  datatype Option<+T> = None | Some(value: T)
}
