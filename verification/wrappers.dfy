/** The optional value used for the results of pattern searches. */
module Wrappers {

  datatype Option<+T> = None | Some(value: T)
}
