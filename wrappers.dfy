/** Optional values, used wherever the scripts may or may not supply a value
    (an absent read/write mix, a name that does not parse, a missing suffix). */
module Wrappers {

  datatype Option<+T> = None | Some(value: T)
}
