/** The optional value used for the catalog's `options?` field. */
module Wrappers {
  datatype Option<+T> = None | Some(value: T)
}
