/** A value that may be absent: `None` stands for a field the form holds as `undefined`. */
module Options {

  datatype Option<+T> = None | Some(value: T)

}
