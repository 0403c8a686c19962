/** The optional value used wherever the C# code has a null reference or a
    failed lookup. */
module Wrappers {

  datatype Option<+T> = None | Some(value: T)
}
