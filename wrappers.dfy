/** The optional value used by the parsers that read generated text back. */
module Wrappers {

  datatype Option<+T> = None | Some(value: T)
}
