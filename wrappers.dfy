/** The optional value used by the recognisers and by the client records. */
module Wrappers {

  datatype Option<+T> = None | Some(value: T)
}
