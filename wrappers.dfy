/** The optional value used for the bot's `None`-or-record fields and for exchange calls that may raise. */
module Wrappers {

  datatype Option<+T> = None | Some(value: T)
}
