/** The optional-value datatype used for dictionary lookups and partial results. */
module Wrappers {

  datatype Option<+T> = None | Some(value: T)
}
