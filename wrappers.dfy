/** The optional value used for a grid cell's label. */
module Wrappers {
  datatype Option<+T> = None | Some(value: T)
}
