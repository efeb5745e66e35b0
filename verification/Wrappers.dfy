/** Shared result shapes and constants. */
module Wrappers {
  /** An optional column or answer: `undefined` and `null` in the stored rows. */
  datatype Option<+T> = None | Some(value: T)

  /** `Number.MAX_SAFE_INTEGER`. */
  const MAX_SAFE_INTEGER: nat := 9007199254740991

  /** `2 ** n`. */
  function Pow2(n: nat): (p: nat)
    ensures p >= 1
  {
    if n == 0 then 1 else 2 * Pow2(n - 1)
  }

  /** The numbers 0, 1, .., n - 1. */
  function UpTo(n: nat): seq<nat> { seq(n, i => i) }

  /** A table without one row. */
  function Remove<T>(m: map<nat, T>, k: nat): map<nat, T> { map i | i in m && i != k :: m[i] }
}
