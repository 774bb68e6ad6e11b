/** The optional values of the page's configuration: a key that is present or absent. */
module Wrappers {

  datatype Option<+T> = None | Some(value: T)

}
