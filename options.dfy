/** The absent-or-present value that stands for a JavaScript result that may be null. */
module Options {

  datatype Option<T> = None | Some(value: T)

}
