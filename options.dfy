/** The optional value used wherever the Java code allows `null`. */
module Options {

  datatype Option<+T> = None | Some(value: T)
}
