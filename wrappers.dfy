/** The usual optional-value datatype, used for nullable C strings and for
    extractions that may fail. */
module Wrappers {

  datatype Option<+T> = None | Some(value: T)

}
