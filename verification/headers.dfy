/** Header maps with case-insensitive names. Every name is stored in lower case, so
    `Content-Type` and `content-type` are one header and the later write wins. */
module HeaderMap {
  import opened Wrappers

  type Headers = map<string, string>

  function LowerChar(c: char): char
  {
    if 'A' <= c <= 'Z' then (c as int + 32) as char else c
  }

  /** ASCII lower-casing of a header name. */
  function Lower(name: string): (r: string)
    ensures |r| == |name|
  {
    seq(|name|, i requires 0 <= i < |name| => LowerChar(name[i]))
  }

  lemma {:induction false} LowerIdempotent(name: string)
    ensures Lower(Lower(name)) == Lower(name)
  {
  }

  /** Every stored name is already in lower case. */
  predicate Normalized(h: Headers)
  {
    forall k :: k in h ==> Lower(k) == k
  }

  predicate Has(h: Headers, name: string)
  {
    Lower(name) in h
  }

  /** The value stored under `name`, whatever its letter case. */
  function Get(h: Headers, name: string): Option<string>
  {
    if Lower(name) in h then Some(h[Lower(name)]) else None
  }

  /** Writes `value` under `name`; any earlier value under any spelling of `name` is replaced. */
  function Set(h: Headers, name: string, value: string): (r: Headers)
    ensures Normalized(h) ==> Normalized(r)
    ensures Get(r, name) == Some(value)
    ensures forall other :: Lower(other) != Lower(name) ==> Get(r, other) == Get(h, other)
  {
    LowerIdempotent(name);
    h[Lower(name) := value]
  }

  /** Writes each entry in turn, as the object spread `{...h, ...entries}` does. */
  function Overlay(h: Headers, entries: seq<(string, string)>): (r: Headers)
    ensures Normalized(h) ==> Normalized(r)
    decreases |entries|
  {
    if entries == [] then h else Overlay(Set(h, entries[0].0, entries[0].1), entries[1..])
  }

  /** The value of the last entry whose name matches `name` ignoring case. */
  function LastMatch(entries: seq<(string, string)>, name: string): Option<string>
    decreases |entries|
  {
    if entries == [] then None
    else if Lower(entries[|entries| - 1].0) == Lower(name) then Some(entries[|entries| - 1].1)
    else LastMatch(entries[..|entries| - 1], name)
  }

  /** After an overlay, a name holds the value of the last entry written under it, and
      otherwise what it held before: the caller's headers win, the last write wins. */
  lemma {:induction false} GetOverlay(h: Headers, entries: seq<(string, string)>, name: string)
    ensures Get(Overlay(h, entries), name) ==
              match LastMatch(entries, name)
              case Some(v) => Some(v)
              case None => Get(h, name)
    decreases |entries|
  {
    if entries != [] {
      var h' := Set(h, entries[0].0, entries[0].1);
      GetOverlay(h', entries[1..], name);
      LastMatchFirst(entries, name);
    }
  }

  /** `LastMatch` seen from the front: the rest's match wins over the first entry. */
  lemma {:induction false} LastMatchFirst(entries: seq<(string, string)>, name: string)
    requires entries != []
    ensures LastMatch(entries, name) ==
              match LastMatch(entries[1..], name)
              case Some(v) => Some(v)
              case None => if Lower(entries[0].0) == Lower(name) then Some(entries[0].1) else None
    decreases |entries|
  {
    if |entries| > 1 {
      var init := entries[..|entries| - 1];
      assert init[1..] == entries[1..][..|entries[1..]| - 1];
      if Lower(entries[|entries| - 1].0) != Lower(name) {
        LastMatchFirst(init, name);
      }
    }
  }

  /** `user-agent` is already in lower case. */
  lemma {:induction false} UserAgentName()
    ensures Lower("user-agent") == "user-agent"
  {
    assert Lower("user-agent") == "user-agent";
  }

  /** The spellings of the header names the engine itself writes or reads. */
  lemma {:induction false} WellKnownNames()
    ensures Lower("Content-Type") == Lower("content-type") == "content-type"
    ensures Lower("Content-Length") == Lower("content-length") == "content-length"
    ensures Lower("user-agent") == "user-agent"
    ensures Lower("location") == "location" && Lower("next-range") == "next-range" && Lower("range") == "range"
  {
    assert Lower("Content-Type") == "content-type";
    assert Lower("content-type") == "content-type";
    assert Lower("Content-Length") == "content-length";
    assert Lower("content-length") == "content-length";
    assert Lower("user-agent") == "user-agent";
    assert Lower("location") == "location";
    assert Lower("next-range") == "next-range";
    assert Lower("range") == "range";
  }
}
