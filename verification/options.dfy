/** The optional value used throughout the model for Java references that may be null. */
module Options {

  datatype Option<+T> = None | Some(value: T)
}
