/** The optional value used for the receiver's "not yet observed" state and its single pending tick. */
module Options {

  datatype Option<+T> = None | Some(value: T)

}
