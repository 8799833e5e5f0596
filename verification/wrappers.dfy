/** The optional-value datatype used for environment fields that may be absent
    and for key lookups that may miss. */
module Wrappers {

  datatype Option<+T> = None | Some(value: T)
}
