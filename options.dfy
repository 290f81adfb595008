/** The "absent" sentinel of the calculator: a JavaScript `null` or a failed parse. */
module Options {

  datatype Option<+T> = None | Some(value: T)
}
