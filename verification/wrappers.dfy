/** The optional result the provider factory returns when it cannot build a provider. */
module Wrappers {

  datatype Option<+T> = None | Some(value: T)

}
