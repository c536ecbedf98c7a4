/** The JavaScript `null`-or-value shape used by the component's state. */
module Wrappers {

  datatype Option<+T> = None | Some(value: T)
}
