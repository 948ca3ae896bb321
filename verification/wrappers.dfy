/** The optional-value datatype shared by the model: a missing HTTP response,
    an absent error message, a storage key that holds nothing. */
module Wrappers {

  datatype Option<+T> = None | Some(value: T)
}
