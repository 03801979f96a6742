/** Option, for values the source may fail to obtain (a parse that raises). */
module Wrappers {

  datatype Option<+T> = None | Some(value: T)
}
