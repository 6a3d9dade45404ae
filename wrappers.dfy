/** The one optional-value type the model needs (an omitted target version, a name that does not match). */
module Wrappers {

  datatype Option<+T> = None | Some(value: T)

}
