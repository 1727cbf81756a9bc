/** The usual optional value, for parses that may fail. */
module Optional {

  datatype Option<+T> = None | Some(value: T)
}
