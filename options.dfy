/** The optional-value wrapper used for lookups that can miss and for a cursor that can be undefined. */
module Options {

  datatype Option<+T> = None | Some(value: T)
}
