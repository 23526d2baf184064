/** The optional value used for media sources, parsed text boxes and missing directories. */
module Wrappers {

  datatype Option<+T> = None | Some(value: T)
}
