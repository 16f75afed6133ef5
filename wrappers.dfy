/** The optional value used for absent JSON keys, null state fields and raised exceptions. */
module Wrappers {

  datatype Option<+T> = None | Some(value: T)

}
