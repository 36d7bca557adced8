/** The optional value shared by the modules: a null, an undefined or a thrown
    error in the program is None here. */
module Options {

  datatype Option<+T> = None | Some(value: T)
}
