/** The optional-value datatype used for absent arguments, absent files and
    dictionary lookups. */
module Wrappers {

  datatype Option<+T> = None | Some(value: T)
}
