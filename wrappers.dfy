/** Optional values and results: `null`/`undefined` and thrown exceptions of
    `useStorage`'s JavaScript become `None` and `Err` here. */
module Wrappers {

  datatype Option<+T> = None | Some(value: T)

  datatype Result<+T, +E> = Ok(value: T) | Err(error: E)
}
