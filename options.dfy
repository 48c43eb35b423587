/** The optional-value datatype shared by the task handler and the port parser. */
module Options {

  datatype Option<+T> = None | Some(value: T)
}
