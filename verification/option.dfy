/** An optional value: the model's stand-in for a field that may be nil. */
module Optional {

  datatype Option<+T> = None | Some(value: T)
}
