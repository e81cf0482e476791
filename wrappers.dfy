/** The optional value used wherever the bot's Python code may produce None or raise. */
module Wrappers {

  datatype Option<+T> = None | Some(value: T)
}
