/** Optional values, shared by every component. */
module Outcomes {
  datatype Option<+T> = None | Some(value: T)
}
