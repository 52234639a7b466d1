/** The Option type used for fields a document may lack. */
module Wrappers {
  datatype Option<+T> = None | Some(value: T)
}
