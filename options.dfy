/** The optional value used for JavaScript's `T | null` state and return types. */
module Options {

  datatype Option<+T> = None | Some(value: T)

}
