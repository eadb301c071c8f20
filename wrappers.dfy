/** The optional value used for absent dict keys and absent row labels. */
module Wrappers {

  datatype Option<+T> = None | Some(value: T)
}
