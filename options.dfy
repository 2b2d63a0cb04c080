/** The optional value used where the nozzle works with a Java reference that may be null. */
module Options {

  datatype Option<+T> = None | Some(value: T)
}
