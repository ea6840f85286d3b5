/** A nullable value: the Java fields modelled here hold either a list or null. */
module Wrappers {

  datatype Option<+T> = None | Some(value: T)
}
