/** The Option datatype shared by every module: a Java `null`, a JavaScript
    `undefined` or a missing map entry is `None`. */
module Wrappers {

  datatype Option<+T> = None | Some(value: T)
}
