/** The optional value used for a memo slot: `None` until the slot is computed. */
module Wrappers {

  datatype Option<+T> = None | Some(value: T)
}
