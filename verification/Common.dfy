/** The one shared datatype: a value that may be absent. */
module Common {
  datatype Option<+T> = None | Some(value: T)
}
