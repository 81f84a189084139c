/** Zero-or-one values, standing in for the nullable references of the organisation. */
module Options {

  datatype Option<+T> = None | Some(value: T)
}
