/** The Some/None wrapper used wherever the source returns `undefined` or `null`. */
module Optional {

  datatype Option<+T> = None | Some(value: T)
}
