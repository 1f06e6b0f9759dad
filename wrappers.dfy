/** The optional value used for `Optional[str]` parameters and for "no match here". */
module Wrappers {

  datatype Option<+T> = None | Some(value: T)
}
