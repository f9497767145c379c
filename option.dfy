/** The optional value that stands for a JavaScript `null` result. */
module Optional {

  datatype Option<+T> = None | Some(value: T)

}
