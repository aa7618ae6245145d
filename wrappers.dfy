/** The optional value used for the crawler's nullable returns. */
module Wrappers {

  datatype Option<+T> = None | Some(value: T)

}
