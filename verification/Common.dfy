/** Small shared vocabulary. */
module Common {

  /** A nullable column. */
  datatype Option<+T> = None | Some(value: T)

  function Max(a: nat, b: nat): nat {
    if a < b then b else a
  }
}
