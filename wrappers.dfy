/** A cell that may be missing: pandas shows a missing cell as NaN. */
module Wrappers {

  datatype Option<+T> = None | Some(value: T)
}
