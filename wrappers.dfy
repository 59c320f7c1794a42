/** The optional value the drawing functions return where the source returns `null`. */
module Wrappers {

  datatype Option<+T> = None | Some(value: T)
}
