/** A minimal Option type: the source's `None` results and missing items. */
module Wrappers {
  datatype Option<+T> = None | Some(value: T)
}
