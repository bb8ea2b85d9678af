/** A value that may be absent: a JavaScript `null`/`undefined` field or argument. */
module Optional {

  datatype Option<+T> = None | Some(value: T)
}
