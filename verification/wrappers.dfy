/** The optional value used for the daemon's "last high-usage time". */
module Wrappers {

  datatype Option<+T> = None | Some(value: T)
}
