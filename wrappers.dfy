/** The optional-value datatype used for decode results and parses. */
module Wrappers {

  datatype Option<+T> = None | Some(value: T)
}
