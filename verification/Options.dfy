/**
 What Python says with None.
 */
module Options {
  datatype Option<+T> = None | Some(value: T)
}
