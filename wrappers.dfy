/** Optional values: `None` stands for "nothing to draw" / "no reading". */
module Wrappers {
  datatype Option<+T> = None | Some(value: T)
}
