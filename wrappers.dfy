/** Python's `None`-or-value, used for dictionary keys that may be absent,
    for the `False`-or-string variables of the extractor and for regex
    matches that may fail. */
module Wrappers {

  datatype Option<+T> = None | Some(value: T)
}
