/** Types shared by all components. */
module Basics {

  datatype Option<+T> = None | Some(value: T)
}
