/** Option type used for values the source represents as null. */
module Wrappers {

  datatype Option<+T> = None | Some(value: T)

}
