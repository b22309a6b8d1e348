/** The optional value used for JavaScript `null`/`undefined` and for absent JSON keys. */
module Wrappers {

  datatype Option<+T> = None | Some(value: T)

}
