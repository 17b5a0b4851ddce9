/** The optional value used where the source keeps `None` (an unrendered world, an unknown direction token). */
module Wrappers {
  datatype Option<+T> = None | Some(value: T)
}
