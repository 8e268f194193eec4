/** A value that may be missing, or a call that may raise. */
module Options {

  datatype Option<+T> = None | Some(value: T)
}
