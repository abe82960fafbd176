/** The optional value used where the program compares against Python's `None`. */
module Options {

  datatype Option<+T> = None | Some(value: T)
}
