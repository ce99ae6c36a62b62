/** Optional values, used where the modelled program may produce nothing
    (a failed parse, a computation that raises). */
module Wrappers {
  datatype Option<+T> = None | Some(value: T)
}
