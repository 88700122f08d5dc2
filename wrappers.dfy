/** A null-or-value wrapper, standing for the source's nullable fields and lookups. */
module Wrappers {
  datatype Option<+T> = None | Some(value: T)
}
