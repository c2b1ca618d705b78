/** The optional value used by the path parser and by the host's lookups. */
module Wrappers {

  datatype Option<+T> = None | Some(value: T)
}
