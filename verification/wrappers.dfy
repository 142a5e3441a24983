/** The optional value used for dictionary lookups that may miss and for
    parses that may fail. */
module Wrappers {

  datatype Option<+T> = None | Some(value: T)
}
