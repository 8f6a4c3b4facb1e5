/** The optional values of the Drive listing: a JavaScript field that may be
    absent (`undefined`) is `None`. */
module Wrappers {

  datatype Option<+T> = None | Some(value: T)
}
