/** Option, for a value a collaborator may fail to produce. */
module Wrappers {

  datatype Option<+T> = None | Some(value: T)
}
