/** The optional value used wherever the repository returns `null` for "nothing". */
module Wrappers {

  datatype Option<+T> = None | Some(value: T)
}
