/** An optional value: an attribute that may be absent, a workout that may not have arrived yet. */
module Options {

  datatype Option<+T> = None | Some(value: T)
}
