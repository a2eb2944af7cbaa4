/** The optional value used for absent storage slots, missing fields and failed lookups. */
module Wrappers {
  datatype Option<+T> = None | Some(value: T)
}
