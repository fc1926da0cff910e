/** Optional values, used for the game's nullable references and for values that are not yet shown. */
module Wrappers {

  datatype Option<+T> = None | Some(value: T)
}
