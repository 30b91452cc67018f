/** Small things that several parts of the model share. */
module Wrappers {
  /** Optional values, wherever the Go code returns a second `ok` result or a nil pointer. */
  datatype Option<+T> = None | Some(value: T)

  /** For counting the cases that hold. */
  function One(b: bool): nat {
    if b then 1 else 0
  }
}
