/** JSON values and the three renderings the request engine relies on: the compact
    serialisation a request body is sent as (`JSON.stringify`), the structural rendering
    an error message shows for a body without a `message` field (`util.inspect`), and the
    UTF-8 byte length `Content-Length` reports (`Buffer.byteLength`). Numbers are integers. */
module Json {
  import opened Wrappers
  import Decimal
  import Strings

  datatype Json =
    | JNull
    | JBool(b: bool)
    | JNum(n: int)
    | JStr(s: string)
    | JArr(items: seq<Json>)
    | JObj(fields: seq<Field>)

  /** One member of an object, in the order it was written. */
  datatype Field = Field(key: string, value: Json)

  predicate HasKey(fields: seq<Field>, key: string)
  {
    exists i :: 0 <= i < |fields| && fields[i].key == key
  }

  /** The value of the LAST field named `key`, as JSON.parse keeps the last of duplicated keys. */
  function Lookup(fields: seq<Field>, key: string): (r: Option<Json>)
    ensures r.Some? <==> HasKey(fields, key)
    ensures r.Some? ==> Field(key, r.value) in fields
    ensures r.Some? ==> exists i :: 0 <= i < |fields| && fields[i] == Field(key, r.value)
                                   && forall j :: i < j < |fields| ==> fields[j].key != key
    decreases |fields|
  {
    if fields == [] then None
    else
      var last := fields[|fields| - 1];
      if last.key == key then
        assert fields[|fields| - 1] == Field(key, last.value);
        Some(last.value)
      else
        var init := fields[..|fields| - 1];
        var r := Lookup(init, key);
        assert r.Some? ==> exists i :: 0 <= i < |fields| && fields[i] == Field(key, r.value)
                                       && forall j :: i < j < |fields| ==> fields[j].key != key by {
          if r.Some? {
            var i :| 0 <= i < |init| && init[i] == Field(key, r.value)
                     && forall j :: i < j < |init| ==> init[j].key != key;
            assert fields[i] == init[i];
            forall j | i < j < |fields| ensures fields[j].key != key {
              if j < |init| { assert fields[j] == init[j]; }
            }
          }
        }
        assert HasKey(fields, key) ==> HasKey(fields[..|fields| - 1], key) by {
          if HasKey(fields, key) {
            var i :| 0 <= i < |fields| && fields[i].key == key;
            assert fields[..|fields| - 1][i] == fields[i];
          }
        }
        assert HasKey(fields[..|fields| - 1], key) ==> HasKey(fields, key) by {
          if HasKey(fields[..|fields| - 1], key) {
            var i :| 0 <= i < |fields| - 1 && fields[..|fields| - 1][i].key == key;
            assert fields[i] == fields[..|fields| - 1][i];
          }
        }
        r
  }

  // ---------------------------------------------------------------- JSON.stringify

  function HexDigit(d: nat): char
    requires d < 16
  {
    "0123456789abcdef"[d]
  }

  /** How JSON.stringify writes one character inside a string literal. */
  function EscapeChar(c: char): string
  {
    if c == '"' then "\\\""
    else if c == '\\' then "\\\\"
    else if c as int == 8 then "\\b"
    else if c as int == 12 then "\\f"
    else if c == '\n' then "\\n"
    else if c == '\r' then "\\r"
    else if c == '\t' then "\\t"
    else if c as int < 0x20 then "\\u00" + [HexDigit(c as int / 16), HexDigit(c as int % 16)]
    else [c]
  }

  function Escape(s: string): string
    decreases |s|
  {
    if s == [] then "" else Escape(s[..|s| - 1]) + EscapeChar(s[|s| - 1])
  }

  /** Text JSON.stringify writes unchanged inside quotes: no control character, quote or
      backslash. */
  predicate Plain(s: string)
  {
    forall i :: 0 <= i < |s| ==> s[i] as int >= 0x20 && s[i] != '"' && s[i] != '\\'
  }

  /** Plain text is written as it is. */
  lemma {:induction false} EscapePlain(s: string)
    requires Plain(s)
    ensures Escape(s) == s
    decreases |s|
  {
    if s != [] {
      var t := s[..|s| - 1];
      EscapePlain(t);
      assert s == t + [s[|s| - 1]];
    }
  }

  function Quote(s: string): string
  {
    "\"" + Escape(s) + "\""
  }

  /** The compact text JSON.stringify produces for `j`. */
  function Stringify(j: Json): string
  {
    match j
    case JNull => "null"
    case JBool(b) => if b then "true" else "false"
    case JNum(n) => Decimal.RenderInt(n)
    case JStr(s) => Quote(s)
    case JArr(items) =>
      "[" + Strings.Join(seq(|items|, i requires 0 <= i < |items| => Stringify(items[i])), ",") + "]"
    case JObj(fields) =>
      "{" + Strings.Join(seq(|fields|, i requires 0 <= i < |fields| =>
                           Quote(fields[i].key) + ":" + Stringify(fields[i].value)), ",") + "}"
  }

  /** An object with one member is written as `{"<key>":<value>}`. */
  lemma {:induction false} StringifySingleField(key: string, value: Json)
    ensures Stringify(JObj([Field(key, value)])) == "{" + Quote(key) + ":" + Stringify(value) + "}"
  {
    var fields := [Field(key, value)];
    var parts := seq(|fields|, i requires 0 <= i < |fields| => Quote(fields[i].key) + ":" + Stringify(fields[i].value));
    assert parts == [Quote(key) + ":" + Stringify(value)];
  }

  // ---------------------------------------------------------------- util.inspect

  predicate IdentifierStart(c: char)
  {
    'a' <= c <= 'z' || 'A' <= c <= 'Z' || c == '_'
  }

  predicate IdentifierPart(c: char)
  {
    IdentifierStart(c) || Decimal.IsDigit(c)
  }

  /** Keys util.inspect writes bare; any other key is quoted. */
  predicate IsIdentifier(k: string)
  {
    |k| > 0 && IdentifierStart(k[0]) && forall i :: 1 <= i < |k| ==> IdentifierPart(k[i])
  }

  function InspectChar(c: char): string
  {
    if c == '\'' then "\\'"
    else if c == '\\' then "\\\\"
    else if c == '\n' then "\\n"
    else [c]
  }

  function InspectString(s: string): string
    decreases |s|
  {
    if s == [] then "" else InspectString(s[..|s| - 1]) + InspectChar(s[|s| - 1])
  }

  function InspectKey(k: string): string
  {
    if IsIdentifier(k) then k else "'" + InspectString(k) + "'"
  }

  /** A one-line structural rendering of `j` in the style of util.inspect: single-quoted
      strings, bare identifier keys, and no cut-off of deep nesting. */
  function Inspect(j: Json): string
  {
    match j
    case JNull => "null"
    case JBool(b) => if b then "true" else "false"
    case JNum(n) => Decimal.RenderInt(n)
    case JStr(s) => "'" + InspectString(s) + "'"
    case JArr(items) =>
      if items == [] then "[]"
      else "[ " + Strings.Join(seq(|items|, i requires 0 <= i < |items| => Inspect(items[i])), ", ") + " ]"
    case JObj(fields) =>
      if fields == [] then "{}"
      else "{ " + Strings.Join(seq(|fields|, i requires 0 <= i < |fields| =>
                                 InspectKey(fields[i].key) + ": " + Inspect(fields[i].value)), ", ") + " }"
  }

  // ---------------------------------------------------------------- Buffer.byteLength

  /** The number of bytes UTF-8 uses for `c`. */
  function Utf8Width(c: char): (w: nat)
    ensures 1 <= w <= 4
    ensures w == 1 <==> c as int < 0x80
  {
    if c as int < 0x80 then 1
    else if c as int < 0x800 then 2
    else if c as int < 0x10000 then 3
    else 4
  }

  /** The number of bytes the UTF-8 encoding of `s` occupies. */
  function Utf8Length(s: string): nat
    decreases |s|
  {
    if s == [] then 0 else Utf8Length(s[..|s| - 1]) + Utf8Width(s[|s| - 1])
  }

  predicate IsAscii(s: string)
  {
    forall i :: 0 <= i < |s| ==> s[i] as int < 0x80
  }

  /** The byte length of a concatenation is the sum of the byte lengths. */
  lemma {:induction false} Utf8LengthAppend(a: string, b: string)
    ensures Utf8Length(a + b) == Utf8Length(a) + Utf8Length(b)
    decreases |b|
  {
    if b == [] {
      assert a + b == a;
    } else {
      var b' := b[..|b| - 1];
      assert (a + b)[..|a + b| - 1] == a + b';
      Utf8LengthAppend(a, b');
    }
  }

  /** Every character takes one to four bytes, and exactly one byte per character
      precisely when the text is ASCII. */
  lemma {:induction false} Utf8LengthBounds(s: string)
    ensures |s| <= Utf8Length(s) <= 4 * |s|
    ensures Utf8Length(s) == |s| <==> IsAscii(s)
    decreases |s|
  {
    if s != [] {
      var t := s[..|s| - 1];
      Utf8LengthBounds(t);
      if IsAscii(s) {
        assert IsAscii(t) by {
          forall i | 0 <= i < |t| ensures t[i] as int < 0x80 { assert t[i] == s[i]; }
        }
      }
      if Utf8Length(s) == |s| {
        forall i | 0 <= i < |s| ensures s[i] as int < 0x80 {
          if i < |t| { assert s[i] == t[i]; }
        }
      }
    }
  }
}
