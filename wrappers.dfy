/** Optional values: the model's rendering of TypeScript's optional fields and
    parameters (`customerType?`, `scenario?`) and of `undefined` results. */
module Wrappers {

  datatype Option<+T> = None | Some(value: T)

}
