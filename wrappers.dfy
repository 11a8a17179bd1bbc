/** The optional value used for TypeScript's optional fields (`defaultValue?: string`),
    for `Array.prototype.find` results and for handlers that may or may not call back. */
module Wrappers {

  datatype Option<+T> = None | Some(value: T)
}
