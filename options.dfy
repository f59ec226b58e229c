/** The optional value used where the JavaScript code returns an object or `null`. */
module Options {

  datatype Option<+T> = None | Some(value: T)
}
