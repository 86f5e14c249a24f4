/** The optional value used for JSON keys a document may leave out and for conversions that can fail. */
module Options {

  datatype Option<+T> = None | Some(value: T)
}
