/** The optional value that the bridge's Python code expresses with None. */
module Optional {

  datatype Option<+T> = None | Some(value: T)
}
