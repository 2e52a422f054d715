/** The optional value used throughout the model: a missing navigation target,
    a submission the chat form refused, an empty selection. */
module Wrappers {

  datatype Option<+T> = None | Some(value: T)

}
