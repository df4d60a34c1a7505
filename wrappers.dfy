/** Optional values, used for "no error" / "no navigation yet" and similar absences. */
module Wrappers {
  datatype Option<+T> = None | Some(value: T)
}
