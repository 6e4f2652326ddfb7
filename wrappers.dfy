/** The optional value used for every network outcome: `None` is a failed request. */
module Wrappers {

  datatype Option<+T> = None | Some(value: T)
}
