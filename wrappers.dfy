/** The optional value used for the layer's pending-request slot and for absent tags. */
module Wrappers {
  datatype Option<+T> = None | Some(value: T)
}
