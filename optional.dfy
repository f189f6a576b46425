/** The absent-or-present value used for PHP's nullable results (`null` or a value). */
module Optional {

  datatype Option<+T> = None | Some(value: T)
}
