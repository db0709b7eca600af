/** The optional-value datatype used by the lookup tables of the codec. */
module Wrappers {

  datatype Option<+T> = None | Some(value: T)
}
