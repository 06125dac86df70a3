/** Absolute request URLs. A URL is always held with its port resolved, and is written
    back with that port explicit (`https://api.jdxcode.com:443/`), which is how the
    engine names a URL in its error messages. */
module Urls {
  import opened Wrappers
  import Decimal
  import Strings

  datatype Scheme = Http | Https

  datatype Url = Url(scheme: Scheme, host: string, port: nat, path: string)

  function DefaultPort(scheme: Scheme): nat
  {
    match scheme
    case Https => 443
    case Http => 80
  }

  function Prefix(scheme: Scheme): string
  {
    match scheme
    case Https => "https://"
    case Http => "http://"
  }

  /** `<protocol>//<host>:<port><path>`. */
  function Render(u: Url): string
  {
    Prefix(u.scheme) + u.host + ":" + Decimal.Render(u.port) + u.path
  }

  predicate HostChar(c: char) { c != ':' && c != '/' }

  predicate ValidHost(host: string)
  {
    |host| > 0 && forall i :: 0 <= i < |host| ==> HostChar(host[i])
  }

  predicate Valid(u: Url)
  {
    ValidHost(u.host) && |u.path| > 0 && u.path[0] == '/'
  }

  /** The part after the scheme: `host[:port][/path]`; the path defaults to `/` and the
      port to the scheme's default. */
  function ParseAuthority(scheme: Scheme, rest: string): Result<Url, string>
  {
    var k := Strings.IndexOf(rest, '/');
    var authority := rest[..k];
    var path := if k == |rest| then "/" else rest[k..];
    var c := Strings.IndexOf(authority, ':');
    var host := authority[..c];
    if host == [] then Failure("no host in URL")
    else if c == |authority| then Success(Url(scheme, host, DefaultPort(scheme), path))
    else
      var digits := authority[c + 1..];
      if digits != [] && Decimal.AllDigits(digits) then Success(Url(scheme, host, Decimal.Value(digits), path))
      else Failure("invalid port in URL")
  }

  /** The scheme a URL text names and what follows its `<scheme>://` prefix; a text
      without a prefix is read as https. */
  function SplitScheme(text: string): (Scheme, string)
  {
    if Strings.StartsWith(text, Prefix(Http)) then (Http, text[7..])
    else if Strings.StartsWith(text, Prefix(Https)) then (Https, text[8..])
    else (Https, text)
  }

  /** Reads a URL: `https://…` or `http://…`; any other text not starting with `/` is a
      bare host, `https://host`; a text starting with `/` (`//` included) replaces the
      path of `base` (the current URL when following a redirect, or the host an instance
      was configured with). Dot segments, queries and paths relative to a directory are
      not resolved. */
  function Parse(text: string, base: Option<Url>): Result<Url, string>
  {
    if |text| > 0 && text[0] == '/' then
      match base
      case Some(b) => Success(b.(path := text))
      case None => Failure("no host in URL")
    else
      var (scheme, rest) := SplitScheme(text);
      ParseAuthority(scheme, rest)
  }

  /** What the authority reader accepts is a valid URL of the scheme it was given. */
  lemma {:induction false} ParseAuthorityValid(scheme: Scheme, rest: string)
    ensures var r := ParseAuthority(scheme, rest);
      r.Success? ==> Valid(r.value) && r.value.scheme == scheme
  {
    var k := Strings.IndexOf(rest, '/');
    var authority := rest[..k];
    var c := Strings.IndexOf(authority, ':');
    var host := authority[..c];
    Strings.IndexOfSpec(rest, '/');
    Strings.IndexOfSpec(authority, ':');
    assert forall i :: 0 <= i < |host| ==> host[i] == rest[i];
  }

  /** A URL read successfully is valid, given that the base it may be resolved against is. */
  lemma {:induction false} ParseValid(text: string, base: Option<Url>)
    requires base.Some? ==> Valid(base.value)
    ensures Parse(text, base).Success? ==> Valid(Parse(text, base).value)
  {
    if !(|text| > 0 && text[0] == '/') {
      var (scheme, rest) := SplitScheme(text);
      ParseAuthorityValid(scheme, rest);
    }
  }

  /** The scheme prefix is recognised as such. */
  lemma {:induction false} ParsePrefix(scheme: Scheme, rest: string, base: Option<Url>)
    ensures Parse(Prefix(scheme) + rest, base) == ParseAuthority(scheme, rest)
  {
    var text := Prefix(scheme) + rest;
    assert text[0] == 'h';
    assert text[..|Prefix(scheme)|] == Prefix(scheme);
    if scheme == Https {
      assert text[4] == 's';
      assert !Strings.StartsWith(text, Prefix(Http)) by {
        assert text[..7][4] != Prefix(Http)[4];
      }
      assert text[8..] == rest;
    } else {
      assert text[7..] == rest;
    }
  }

  /** The authority part, cut into host, optional port and path. */
  function Authority(host: string, port: Option<string>, path: string): string
  {
    match port
    case None => host + path
    case Some(digits) => host + ":" + digits + path
  }

  /** A host followed by an optional `:` and numeral. */
  function HostPort(host: string, port: Option<string>): string
  {
    match port
    case None => host
    case Some(digits) => host + ":" + digits
  }

  /** The first `/` of an authority put together from a valid host, an optional numeral
      and a path is where the path starts. */
  lemma {:induction false} CutPath(host: string, port: Option<string>, path: string)
    requires ValidHost(host)
    requires path == [] || path[0] == '/'
    requires port.Some? ==> Decimal.AllDigits(port.value)
    ensures var rest := Authority(host, port, path);
      var k := Strings.IndexOf(rest, '/');
      && rest[..k] == HostPort(host, port)
      && (if k == |rest| then "/" else rest[k..]) == (if path == [] then "/" else path)
  {
    var authority := HostPort(host, port);
    var rest := Authority(host, port, path);
    assert rest == authority + path;
    forall i | 0 <= i < |authority| ensures authority[i] != '/' {
      if i < |host| {
        assert authority[i] == host[i];
      } else if port.Some? && i > |host| {
        assert authority[i] == port.value[i - |host| - 1];
      }
    }
    Strings.IndexOfAfter(authority, path, '/');
    if path != [] { assert Strings.IndexOf(path, '/') == 0; }
    assert rest[..|authority|] == authority;
  }

  /** The first `:` of a valid host followed by an optional `:` and numeral is where the
      host ends; the numeral follows it. */
  lemma {:induction false} CutPort(host: string, port: Option<string>)
    requires ValidHost(host)
    ensures var authority := HostPort(host, port);
      var c := Strings.IndexOf(authority, ':');
      && c <= |authority| && authority[..c] == host
      && (c == |authority| <==> port.None?)
      && (port.Some? ==> authority[c + 1..] == port.value)
  {
    match port {
      case None =>
        Strings.IndexOfAfter(host, [], ':');
        assert host + [] == host;
      case Some(d) =>
        Strings.IndexOfAfter(host, ":" + d, ':');
        assert HostPort(host, port) == host + (":" + d);
        assert HostPort(host, port)[..|host|] == host;
        assert HostPort(host, port)[|host| + 1..] == d;
    }
  }

  /** Reading an authority put together from a valid host, an optional numeral and a
      path gives those parts back. */
  lemma {:induction false} ParseAuthorityParts(scheme: Scheme, host: string, port: Option<string>, path: string)
    requires ValidHost(host)
    requires path == [] || path[0] == '/'
    requires port.Some? ==> |port.value| > 0 && Decimal.AllDigits(port.value)
    ensures ParseAuthority(scheme, Authority(host, port, path))
              == Success(Url(scheme, host,
                             match port case None => DefaultPort(scheme) case Some(d) => Decimal.Value(d),
                             if path == [] then "/" else path))
  {
    CutPath(host, port, path);
    CutPort(host, port);
  }

  /** A host with path, the port left out: the scheme's default port is used. */
  lemma {:induction false} ParseDefaultPort(scheme: Scheme, host: string, path: string, base: Option<Url>)
    requires ValidHost(host)
    requires path == [] || path[0] == '/'
    ensures Parse(Prefix(scheme) + host + path, base)
              == Success(Url(scheme, host, DefaultPort(scheme), if path == [] then "/" else path))
  {
    assert Prefix(scheme) + host + path == Prefix(scheme) + Authority(host, None, path);
    ParsePrefix(scheme, Authority(host, None, path), base);
    ParseAuthorityParts(scheme, host, None, path);
  }

  /** A bare host is read as an https URL on port 443 at `/`. */
  lemma {:induction false} ParseBareHost(host: string, base: Option<Url>)
    requires ValidHost(host)
    requires !Strings.StartsWith(host, "https://") && !Strings.StartsWith(host, "http://")
    ensures Parse(host, base) == Success(Url(Https, host, 443, "/"))
  {
    assert Authority(host, None, []) == host;
    ParseAuthorityParts(Https, host, None, []);
  }

  /** Writing a valid URL and reading it back gives the same URL. */
  lemma {:induction false} ParseRender(u: Url, base: Option<Url>)
    requires Valid(u)
    ensures Parse(Render(u), base) == Success(u)
  {
    var digits := Decimal.Render(u.port);
    var rest := Authority(u.host, Some(digits), u.path);
    assert Render(u) == Prefix(u.scheme) + rest;
    ParsePrefix(u.scheme, rest, base);
    ParseAuthorityParts(u.scheme, u.host, Some(digits), u.path);
    Decimal.ValueOfRender(u.port);
  }
}
