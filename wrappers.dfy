/** Optional values and results, used where psynth.js returns the sentinel
    `-1` or `undefined`, or throws. */
module Wrappers {

  datatype Option<+T> = None | Some(value: T)

  datatype Result<+T, +E> = Ok(value: T) | Err(error: E)
}
