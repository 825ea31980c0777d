/** The optional value used wherever the source holds a nullable pointer or a nil slice. */
module Wrappers {

  datatype Option<+T> = None | Some(value: T)
}
