/** Optional values: the model's stand-in for pandas' NaN / "not available". */
module Wrappers {

  /** `None` plays the part of an undefined (NaN) entry. */
  datatype Option<+T> = None | Some(value: T)
}
