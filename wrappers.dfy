/** The optional result used where the dashboard shows a value or a "nothing entered" warning. */
module Wrappers {

  datatype Option<+T> = None | Some(value: T)
}
