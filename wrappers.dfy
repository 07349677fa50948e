/** An optional value: a JavaScript property that holds a value (`Some`)
    or is absent / `undefined` (`None`). */
module Wrappers {

  datatype Option<+T> = None | Some(value: T)
}
