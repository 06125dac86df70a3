/** Facts about sequence concatenation used when requests and waits are accumulated. */
module Seqs {
  /** Concatenation is associative. */
  lemma {:induction false} AppendAssoc<T>(x: seq<T>, y: seq<T>, z: seq<T>)
    ensures (x + y) + z == x + (y + z)
  {
  }

  /** `n` copies of `x`. */
  function Repeat<T>(x: T, n: nat): (r: seq<T>)
    ensures |r| == n && forall i :: 0 <= i < n ==> r[i] == x
    decreases n
  {
    if n == 0 then [] else [x] + Repeat(x, n - 1)
  }
}
