/** The optional value used wherever the widget holds `T | null`. */
module Wrappers {

  datatype Option<+T> = None | Some(value: T)
}
