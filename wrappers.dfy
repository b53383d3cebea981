/** Option, standing in for the C# null reference throughout the model. */
module Wrappers {

  datatype Option<+T> = None | Some(value: T)
}
