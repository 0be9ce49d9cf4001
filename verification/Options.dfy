/** The absent-or-present values of the program: nil pointers, nil channels, missing results. */
module Options {

  datatype Option<+T> = None | Some(value: T)
}
