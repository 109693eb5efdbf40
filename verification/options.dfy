/** The Some/None type that stands in for the plug-in's references that may be null. */
module Options {

  datatype Option<+T> = None | Some(value: T)
}
