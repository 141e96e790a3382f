/** Option, used for the values C# allows to be null. */
module Wrappers {

  datatype Option<+T> = None | Some(value: T)
}
