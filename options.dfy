/** A nullable value: `None` stands for the NULL pointer of the C++ code. */
module Options {

  datatype Option<+T> = None | Some(value: T)
}
