/** The optional values the bot's JavaScript expresses with `undefined`. */
module Wrappers {

  datatype Option<+T> = None | Some(value: T)

}
