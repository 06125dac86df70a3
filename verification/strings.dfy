/** Small string utilities shared by the URL parser, the JSON renderers and the error messages. */
module Strings {

  /** The index of the first occurrence of `c` in `s`, or `|s|` when there is none. */
  function IndexOf(s: string, c: char): (k: nat)
    ensures k <= |s|
    decreases |s|
  {
    if s == [] then 0
    else if s[0] == c then 0
    else 1 + IndexOf(s[1..], c)
  }

  /** `IndexOf` finds the first occurrence: `c` sits there, and nowhere before. */
  lemma {:induction false} IndexOfSpec(s: string, c: char)
    ensures var k := IndexOf(s, c);
      && (k < |s| ==> s[k] == c)
      && (forall i :: 0 <= i < k ==> s[i] != c)
    decreases |s|
  {
    if s != [] && s[0] != c {
      IndexOfSpec(s[1..], c);
      assert forall i :: 1 <= i < IndexOf(s, c) ==> s[i] == s[1..][i - 1];
    }
  }

  /** Searching past a prefix that does not hold `c` lands at the same place in what follows. */
  lemma {:induction false} IndexOfAfter(a: string, b: string, c: char)
    requires forall i :: 0 <= i < |a| ==> a[i] != c
    ensures IndexOf(a + b, c) == |a| + IndexOf(b, c)
  {
    var m := IndexOf(b, c);
    IndexOfSpec(b, c);
    IndexOfSpec(a + b, c);
    assert forall i :: 0 <= i < |a| ==> (a + b)[i] == a[i];
    assert forall i :: |a| <= i < |a| + m ==> (a + b)[i] == b[i - |a|];
    if m < |b| {
      assert (a + b)[|a| + m] == b[m];
    }
  }

  /** `s` begins with `p`. */
  predicate StartsWith(s: string, p: string)
  {
    |p| <= |s| && s[..|p|] == p
  }

  /** The parts, in order, with `sep` between consecutive ones (JavaScript's `Array.prototype.join`). */
  function Join(parts: seq<string>, sep: string): string
    decreases |parts|
  {
    if parts == [] then ""
    else if |parts| == 1 then parts[0]
    else parts[0] + sep + Join(parts[1..], sep)
  }
}
