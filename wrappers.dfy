/** The absent-or-present value used for optional request fields and optional
    document fields (a JavaScript `undefined` or `null` is `None`). */
module Wrappers {

  datatype Option<+T> = None | Some(value: T)

}
