/** The cases the test suite of `src/http.test.js` exercises, as statements about the
    model: against the host `api.jdxcode.com`, with the transport replaced by a script.

    Two habits below keep the verifier from evaluating long literal texts character by
    character: an expected text is written as the concatenation of the pieces the
    definitions put together (so equal pieces meet piece by piece), and a literal the
    whole proof depends on is passed as a parameter pinned by a `requires`. */
module Scenarios {
  import opened Wrappers
  import opened HeaderMap
  import opened Json
  import Decimal
  import Strings
  import Urls
  import opened Requests
  import opened Responses
  import opened Retrying
  import opened Redirects
  import opened Pagination
  import Seqs
  import opened Transport
  import opened Client

  const API: string := "api.jdxcode.com"

  /** `https://api.jdxcode.com`, resolved. */
  const ROOT: Urls.Url := Urls.Url(Urls.Https, API, 443, "/")

  /** `{message: 'ok'}`. */
  const OK: Payload := Data(JObj([Field("message", JStr("ok"))]))

  /** `{foo: 'bar'}`, the body the POST, PUT, PATCH and DELETE tests send. */
  const FOO_BAR: Json := JObj([Field("foo", JStr("bar"))])

  lemma {:induction false} ApiIsHost()
    ensures Urls.ValidHost(API)
  {
  }

  /** `https://api.jdxcode.com` is port 443 at `/`. */
  lemma {:induction false} ParsesApiRoot(base: Option<Urls.Url>)
    ensures Urls.Parse("https://api.jdxcode.com", base) == Success(ROOT)
  {
    ApiIsHost();
    assert "https://api.jdxcode.com" == Urls.Prefix(Urls.Https) + API + "";
    Urls.ParseDefaultPort(Urls.Https, API, "", base);
  }

  /** `https://api.jdxcode.com:3000` is port 3000. The text is a parameter pinned by the
      `requires` so that it is unfolded only where the proof asks for it. */
  lemma {:induction false} ParsesExplicitPort(text: string)
    requires text == "https://api.jdxcode.com:3000"
    ensures Urls.Parse(text, None) == Success(Urls.Url(Urls.Https, API, 3000, "/"))
  {
    ApiIsHost();
    ExplicitPortText();
    Urls.ParsePrefix(Urls.Https, Urls.Authority(API, Some("3000"), ""), None);
    Urls.ParseAuthorityParts(Urls.Https, API, Some("3000"), "");
    Port3000();
  }

  /** `https://api.jdxcode.com:3000` is the https prefix, the host, and port `3000`. */
  lemma {:induction false} ExplicitPortText()
    ensures "https://api.jdxcode.com:3000" == Urls.Prefix(Urls.Https) + Urls.Authority(API, Some("3000"), "")
  {
  }

  /** The numeral `3000` denotes 3000. */
  lemma {:induction false} Port3000()
    ensures Decimal.AllDigits("3000") && Decimal.Value("3000") == 3000
  {
    assert Decimal.Render(3000) == "3000" by {
      assert Decimal.Render(3) == "3";
      assert Decimal.Render(30) == "30";
      assert Decimal.Render(300) == "300";
    }
    Decimal.ValueOfRender(3000);
  }

  /** `http://api.jdxcode.com` is port 80. */
  lemma {:induction false} ParsesHttp()
    ensures Urls.Parse("http://api.jdxcode.com", None) == Success(Urls.Url(Urls.Http, API, 80, "/"))
  {
    ApiIsHost();
    assert "http://api.jdxcode.com" == Urls.Prefix(Urls.Http) + API + "";
    Urls.ParseDefaultPort(Urls.Http, API, "", None);
  }

  /** With `HTTP.defaults({host: 'api.jdxcode.com'})`, the path `/` is the root of that host. */
  lemma {:induction false} ParsesAgainstDefaultHost(version: string, runtime: string)
    ensures Urls.Parse("/", ConfiguredBase(Config(Some(API), [], version, runtime))) == Success(ROOT)
  {
  }

  /** A host without a scheme, as in `new HTTP('www.duckduckgo.com', …)`, is an https URL. */
  lemma {:induction false} ParsesBareHost()
    ensures Urls.Parse("www.duckduckgo.com", None) == Success(Urls.Url(Urls.Https, "www.duckduckgo.com", 443, "/"))
  {
    var host := "www.duckduckgo.com";
    assert Urls.ValidHost(host);
    assert !Strings.StartsWith(host, "https://") by { assert host[0] != "https://"[0]; }
    assert !Strings.StartsWith(host, "http://") by { assert host[0] != "http://"[0]; }
    Urls.ParseBareHost(host, None);
  }

  /** The user-agent `http-call/<version> node-<runtime>` is sent, and so are the
      caller's own headers. */
  lemma {:induction false} SendsUserAgentAndCustomHeaders(version: string, runtime: string)
    ensures var h := BaseHeaders(Config(None, [], version, runtime), Options([("foo", "bar")], None));
      Get(h, "user-agent") == Some("http-call/" + version + " node-" + runtime) && Get(h, "foo") == Some("bar")
  {
    var config := Config(None, [], version, runtime);
    var options := Options([("foo", "bar")], None);
    BaseHeadersPrecedence(config, options, "user-agent");
    BaseHeadersPrecedence(config, options, "foo");
    assert Lower("foo") == "foo";
    WellKnownNames();
  }

  /** `{foo: 'bar'}` is sent as `{"foo":"bar"}` under `application/json`, with
      `Content-Length: 13`. */
  lemma {:induction false} PostsJsonBody(verb: Method, version: string, runtime: string)
    ensures var d := Build(verb, ROOT, Config(None, [], version, runtime), Options([], Some(FOO_BAR)));
      && d.body == Some("{\"foo\":\"bar\"}")
      && Get(d.headers, "content-type") == Some("application/json")
      && Get(d.headers, "Content-Length") == Some("13")
  {
    var config := Config(None, [], version, runtime);
    var options := Options([], Some(FOO_BAR));
    WellKnownNames();
    assert !Has(BaseHeaders(config, options), "content-type") by {
      BaseHeadersPrecedence(config, options, "content-type");
    }
    JsonBodyDefaults(verb, ROOT, config, options);
    FooBarText();
    FooBarLength();
    assert Decimal.Render(13) == "13";
  }

  /** `{foo: 'bar'}` serialises to `{"foo":"bar"}`. */
  lemma {:induction false} FooBarText()
    ensures Stringify(FOO_BAR) == "{\"foo\":\"bar\"}"
  {
    SingleStringField("foo", "bar");
  }

  /** An object with one plain string member, serialised. */
  lemma {:induction false} SingleStringField(key: string, value: string)
    requires Plain(key) && Plain(value)
    ensures Stringify(JObj([Field(key, JStr(value))])) == "{\"" + key + "\":\"" + value + "\"}"
  {
    EscapePlain(key);
    EscapePlain(value);
    StringifySingleField(key, JStr(value));
  }

  /** A form-encoded text under the caller's `Content-Type` goes out as it is, under that
      content type. */
  lemma {:induction false} PassesCustomEncodedContentType(version: string, runtime: string)
    ensures var form := "karate=chop&judo=throw&taewkondo=kick&jujitsu=strangle";
      var d := Build(POST, ROOT, Config(None, [], version, runtime),
                     Options([("Content-Type", "application/x-www-form-urlencoded")], Some(JStr(form))));
      d.body == Some(form) && Get(d.headers, "content-type") == Some("application/x-www-form-urlencoded")
  {
    var form := "karate=chop&judo=throw&taewkondo=kick&jujitsu=strangle";
    var config := Config(None, [], version, runtime);
    var options := Options([("Content-Type", "application/x-www-form-urlencoded")], Some(JStr(form)));
    WellKnownNames();
    BaseHeadersPrecedence(config, options, "content-type");
    CustomContentTypeVerbatim(POST, ROOT, config, options, form);
  }

  /** `{"foo":"bar"}` is thirteen bytes. */
  lemma {:induction false} FooBarLength()
    ensures Utf8Length("{\"foo\":\"bar\"}") == 13
  {
    AsciiLength("{\"foo\":\"bar\"}");
  }

  /** ASCII text takes one byte per character. */
  lemma {:induction false} AsciiLength(text: string)
    requires IsAscii(text)
    ensures Utf8Length(text) == |text|
  {
    Utf8LengthBounds(text);
  }

  lemma {:induction false} Numeral443()
    ensures Decimal.Render(443) == "443"
  {
    assert Decimal.Render(4) == "4";
    assert Decimal.Render(44) == "44";
  }

  lemma {:induction false} Numeral404()
    ensures Decimal.Render(404) == "404"
  {
    assert Decimal.Render(4) == "4";
    assert Decimal.Render(40) == "40";
  }

  /** `https://api.jdxcode.com:443/`, the way error messages name the root. */
  lemma {:induction false} RootText()
    ensures Urls.Render(ROOT) == "https://api.jdxcode.com:443/"
  {
    Numeral443();
  }

  /** The headline of a 404 on `GET https://api.jdxcode.com`, written in the pieces
      `Headline` joins. */
  lemma {:induction false} NotFoundHeadline()
    ensures Headline(404, GET, ROOT) == "HTTP Error " + "404" + " for " + "GET" + " " + "https://api.jdxcode.com:443/"
  {
    RootText();
    Numeral404();
  }

  /** A 404 with a text body: the message is the headline and the text. */
  lemma {:induction false} DisplaysNotFound()
    ensures var e := HttpFailure(404, GET, ROOT, Text("oops! not found"));
      && e.statusCode == 404
      && Message(e) == "HTTP Error " + "404" + " for " + "GET" + " " + "https://api.jdxcode.com:443/" + "\n" + "oops! not found"
  {
    NotFoundHeadline();
  }

  /** A 404 whose body has a `message` field: that field stands under the headline, and
      the body is kept whole. */
  lemma {:induction false} DisplaysErrorMessage()
    ensures var body := Data(JObj([Field("message", JStr("uh oh")), Field("otherinfo", OneTwoThree())]));
      var e := HttpFailure(404, GET, ROOT, body);
      && e.statusCode == 404 && e.body == body
      && Message(e) == "HTTP Error " + "404" + " for " + "GET" + " " + "https://api.jdxcode.com:443/" + "\n" + "uh oh"
  {
    NotFoundHeadline();
  }

  /** `[1, 2, 3]`. */
  function OneTwoThree(): Json
  {
    JArr([JNum(1), JNum(2), JNum(3)])
  }

  /** A 404 whose body is an object without `message`: its structural rendering stands
      under the headline. */
  lemma {:induction false} DisplaysObjectError()
    ensures var body := Data(JObj([Field("otherinfo", OneTwoThree())]));
      var e := HttpFailure(404, GET, ROOT, body);
      && e.statusCode == 404 && e.body == body
      && Message(e) == "HTTP Error " + "404" + " for " + "GET" + " " + "https://api.jdxcode.com:443/" + "\n" + ("{ " + ("otherinfo" + ": " + ("[ " + ("1" + ", " + ("2" + ", " + "3")) + " ]")) + " }")
  {
    NotFoundHeadline();
    InspectOneTwoThree();
  }

  /** `{otherinfo: [1, 2, 3]}` renders as `{ otherinfo: [ 1, 2, 3 ] }`. */
  lemma {:induction false} InspectOneTwoThree()
    ensures Inspect(JObj([Field("otherinfo", OneTwoThree())]))
              == "{ " + ("otherinfo" + ": " + ("[ " + ("1" + ", " + ("2" + ", " + "3")) + " ]")) + " }"
  {
    InspectNumbers();
    assert IsIdentifier("otherinfo");
    var fields := [Field("otherinfo", OneTwoThree())];
    var parts := seq(|fields|, i requires 0 <= i < |fields| => InspectKey(fields[i].key) + ": " + Inspect(fields[i].value));
    assert parts == ["otherinfo" + ": " + Inspect(OneTwoThree())];
  }

  /** `[1, 2, 3]` renders as `[ 1, 2, 3 ]`. */
  lemma {:induction false} InspectNumbers()
    ensures Inspect(OneTwoThree()) == "[ " + ("1" + ", " + ("2" + ", " + "3")) + " ]"
  {
    var items := OneTwoThree().items;
    var parts := seq(|items|, i requires 0 <= i < |items| => Inspect(items[i]));
    assert Decimal.RenderInt(1) == "1" && Decimal.RenderInt(2) == "2" && Decimal.RenderInt(3) == "3";
    assert parts == ["1", "2", "3"];
    assert parts[1..] == ["2", "3"] && parts[1..][1..] == ["3"];
    assert Strings.Join(["3"], ", ") == "3";
    assert Strings.Join(["2", "3"], ", ") == "2" + ", " + "3";
    assert Strings.Join(parts, ", ") == "1" + ", " + ("2" + ", " + "3");
  }

  // ---------------------------------------------------------------- whole calls

  /** `get('https://api.jdxcode.com')`, from package `version` on runtime `runtime`. */
  function GetRoot(version: string, runtime: string): Descriptor
  {
    Build(GET, ROOT, Config(None, [], version, runtime), Options([], None))
  }

  /** The call `get('https://api.jdxcode.com')` is the request for its pages; the cases
      below are stated from there. */
  lemma {:induction false} GetRootCall(version: string, runtime: string, script: seq<Outcome>)
    ensures var x := Run(GET, "https://api.jdxcode.com", Config(None, [], version, runtime), Options([], None), script);
      var p := Collect(GetRoot(version, runtime), script, 0, [], None);
      x == Exchange(p.result, p.rest, p.sent, p.waits)
  {
    ParsesApiRoot(None);
  }

  /** A GET answered by one reply without `next-range` returns its body and headers,
      after one request and no wait. */
  lemma {:induction false} MakesGetRequest(version: string, runtime: string, headers: Headers)
    requires "location" !in headers && "next-range" !in headers
    ensures var x := Collect(GetRoot(version, runtime), [Replied(Reply(200, headers, OK))], 0, [], None);
      && x.result == Success(Response(200, headers, OK))
      && x.sent == [GetRoot(version, runtime)] && x.waits == [] && x.rest == []
  {
    var r := Reply(200, headers, OK);
    CollectPages(GetRoot(version, runtime), [r], [], 0, [], None);
    assert Replies([r]) + [] == [Replied(r)];
    assert [] + Bodies([r]) == [OK];
    MergeOne(OK);
  }

  /** `{message: 'foo'}`, the reply that ends the retry tests. */
  const FOO: Reply := Reply(200, map[], Data(JObj([Field("message", JStr("foo"))])))

  /** `timed out 1`, `timed out 2`, …: transport timeouts. */
  function Timeouts(count: nat): (t: seq<Outcome>)
    ensures |t| == count
    ensures forall i :: 0 <= i < count ==> Transient(t[i])
  {
    seq(count, i requires 0 <= i < count => Failed("ETIMEDOUT", "timed out " + Decimal.Render(i + 1)))
  }

  /** A single page reached after a round of attempts ends the call with its body. */
  lemma {:induction false} SettlesOnFoo(d: Descriptor, script: seq<Outcome>)
    requires Retry(d, script, 0).result == Success(FOO)
    ensures var a := Retry(d, script, 0);
      var p := Collect(d, script, 0, [], None);
      p.result == Success(Response(200, map[], FOO.body)) && p.sent == a.sent && p.waits == a.waits
  {
    FollowSettles(d, script, 0);
    CollectLastPage(d, script, 0, [], None);
    assert [] + [FOO.body] == [FOO.body];
    MergeOne(FOO.body);
  }

  /** Four timeouts, then a reply: the call succeeds after five requests, having waited
      before retries one to four. */
  lemma {:induction false} RetriesThenSucceeds(version: string, runtime: string)
    ensures var x := Collect(GetRoot(version, runtime), Timeouts(4) + [Replied(FOO)], 0, [], None);
      && x.result == Success(Response(200, map[], FOO.body))
      && x.sent == Seqs.Repeat(GetRoot(version, runtime), 5)
      && x.waits == [1, 2, 3, 4]
  {
    var d := GetRoot(version, runtime);
    var script := Timeouts(4) + [Replied(FOO)];
    RetryAbsorbs(d, Timeouts(4), FOO, [], 0);
    assert Timeouts(4) + [Replied(FOO)] + [] == script;
    SettlesOnFoo(d, script);
  }

  /** Six timeouts: the call fails with the sixth, after six requests and five waits. */
  lemma {:induction false} RetriesFiveTimes(version: string, runtime: string)
    ensures var x := Collect(GetRoot(version, runtime), Timeouts(6), 0, [], None);
      && x.result == Failure(TransportFailure("ETIMEDOUT", "timed out " + "6"))
      && Message(x.result.error) == "timed out " + "6"
      && x.sent == Seqs.Repeat(GetRoot(version, runtime), 6)
      && x.waits == [1, 2, 3, 4, 5]
  {
    var d := GetRoot(version, runtime);
    RetryExhausts(d, Timeouts(6), [], 0);
    assert Timeouts(6) + [] == Timeouts(6);
    FollowFails(d, Timeouts(6), 0);
    CollectFailure(d, Timeouts(6), 0, [], None);
  }

  /** A failed DNS lookup is retried once, then the reply is returned. */
  lemma {:induction false} RetriesOnNotFound(version: string, runtime: string)
    ensures var x := Collect(GetRoot(version, runtime), [Failed("ENOTFOUND", "not found"), Replied(FOO)], 0, [], None);
      && x.result == Success(Response(200, map[], FOO.body))
      && x.sent == [GetRoot(version, runtime), GetRoot(version, runtime)] && x.waits == [1]
  {
    var d := GetRoot(version, runtime);
    var fails := [Failed("ENOTFOUND", "not found")];
    var script := fails + [Replied(FOO)] + [];
    assert script == [Failed("ENOTFOUND", "not found"), Replied(FOO)];
    RetryAbsorbs(d, fails, FOO, [], 0);
    SettlesOnFoo(d, script);
  }

  /** An unknown failure code fails the call at once with the failure's own message. */
  lemma {:induction false} ErrorsOnUnknownCode(version: string, runtime: string)
    ensures var x := Collect(GetRoot(version, runtime), [Failed("OUT_OF_MEM", "oom")], 0, [], None);
      && x.result == Failure(TransportFailure("OUT_OF_MEM", "oom"))
      && Message(x.result.error) == "oom"
      && x.sent == [GetRoot(version, runtime)] && x.waits == []
  {
    var d := GetRoot(version, runtime);
    var script := [Failed("OUT_OF_MEM", "oom")];
    FailsAtOnce(d, "OUT_OF_MEM", "oom", [], 0);
    assert [Failed("OUT_OF_MEM", "oom")] + [] == script;
    FollowFails(d, script, 0);
    CollectFailure(d, script, 0, [], None);
  }

  /** A 404 reply fails the call with the HTTP error for it, whatever its body: the text of
      `DisplaysNotFound`, the object with `message` of `DisplaysErrorMessage`, or the one
      without of `DisplaysObjectError`. */
  lemma {:induction false} NotFoundFailsCall(version: string, runtime: string, body: Payload)
    ensures var x := Collect(GetRoot(version, runtime), [Replied(Reply(404, map[], body))], 0, [], None);
      x.result == Failure(HttpFailure(404, GET, ROOT, body)) && |x.sent| == 1
  {
    var d := GetRoot(version, runtime);
    var r := Reply(404, map[], body);
    FollowReply(d, r, [], 0);
    assert [Replied(r)] + [] == [Replied(r)];
    CollectErrorStatus(d, [Replied(r)], 0, [], None);
  }

  // ---------------------------------------------------------------- redirects

  /** `/foo<n>`. */
  function FooPath(n: nat): string
  {
    "/foo" + Decimal.Render(n)
  }

  /** `https://api.jdxcode.com/foo<n>`, resolved. */
  function Foo(n: nat): Urls.Url
  {
    Urls.Url(Urls.Https, API, 443, FooPath(n))
  }

  /** A 302 reply with `Location: https://api.jdxcode.com/foo<n>` and no body. */
  function ToFoo(n: nat): Reply
  {
    Reply(302, map["location" := "https://" + API + FooPath(n)], Data(JNull))
  }

  /** `m` redirects, the first sent from `/foo<k>`, each to the next `/foo<n>`. */
  function FooRedirects(k: nat, m: nat): (rs: seq<Reply>)
    ensures |rs| == m
  {
    seq(m, i requires 0 <= i < m => ToFoo(k + i + 1))
  }

  /** `/foo<k>`, `/foo<k + 1>`, …, `m` of them. */
  function Foos(k: nat, m: nat): (us: seq<Urls.Url>)
    ensures |us| == m && forall i :: 0 <= i < m ==> us[i] == Foo(k + i)
  {
    seq(m, i requires 0 <= i < m => Foo(k + i))
  }

  /** `get('https://api.jdxcode.com/foo<n>')`. */
  function GetFoo(version: string, runtime: string, n: nat): Descriptor
  {
    Build(GET, Foo(n), Config(None, [], version, runtime), Options([], None))
  }

  lemma {:induction false} ParsesFoo(n: nat, base: Option<Urls.Url>)
    ensures Urls.Parse("https://" + API + FooPath(n), base) == Success(Foo(n))
  {
    ApiIsHost();
    Urls.ParseDefaultPort(Urls.Https, API, FooPath(n), base);
  }

  /** The redirects `/foo<k>` → `/foo<k + 1>` → … form a chain through those URLs. */
  lemma {:induction false} FooChain(k: nat, m: nat, e: nat)
    ensures Chain(FooRedirects(k, m), Foos(k, m + e))
    decreases m
  {
    if m > 0 {
      assert FooRedirects(k, m)[0] == ToFoo(k + 1);
      assert IsRedirect(ToFoo(k + 1)) && Location(ToFoo(k + 1)) == "https://" + API + FooPath(k + 1);
      ParsesFoo(k + 1, Some(Foo(k)));
      assert FooRedirects(k, m)[1..] == FooRedirects(k + 1, m - 1);
      assert Foos(k, m + e)[1..] == Foos(k + 1, m - 1 + e);
      FooChain(k + 1, m - 1, e);
    }
  }

  /** `{success: true}`. */
  const SUCCESS: Reply := Reply(200, map[], Data(JObj([Field("success", JBool(true))])))

  /** `/foo1` redirects to `/foo2`, which redirects to `/foo3`, which answers: the call
      succeeds with that answer after one request to each URL and two hops. */
  lemma {:induction false} FollowsRedirect(version: string, runtime: string)
    ensures var d := GetFoo(version, runtime, 1);
      var script := Replies(FooRedirects(1, 2)) + [Replied(SUCCESS)];
      var h := Follow(d, script, 0);
      var x := Collect(d, script, 0, [], None);
      && h.url == Foo(3) && h.hops == 2 && h.sent == Visits(d, Foos(1, 3))
      && x.result == Success(Response(200, map[], SUCCESS.body))
  {
    var d := GetFoo(version, runtime, 1);
    var script := Replies(FooRedirects(1, 2)) + [Replied(SUCCESS)];
    FooChain(1, 2, 1);
    FollowChain(d, FooRedirects(1, 2), Foos(1, 3), SUCCESS, [], 0);
    assert [Replied(SUCCESS)] + [] == [Replied(SUCCESS)];
    CollectLastPage(d, script, 0, [], None);
    assert [] + [SUCCESS.body] == [SUCCESS.body];
    MergeOne(SUCCESS.body);
  }

  /** Eleven redirects from `/foo<k>`: the call fails with a redirect loop at
      `/foo<k + 10>`, the URL that sent the eleventh, after one request to each of
      `/foo<k>` … `/foo<k + 10>`. From `/foo1` the message names `/foo11` (`Foo11Text`). */
  lemma {:induction false} FollowsRedirectOnlyTenTimes(version: string, runtime: string, k: nat)
    ensures var d := GetFoo(version, runtime, k);
      var x := Collect(d, Replies(FooRedirects(k, 11)), 0, [], None);
      && x.result == Failure(RedirectLoop(Foo(k + 10)))
      && Message(x.result.error) == "Redirect loop at " + Urls.Render(Foo(k + 10))
      && x.sent == Visits(d, Foos(k, 11))
  {
    var d := GetFoo(version, runtime, k);
    var script := Replies(FooRedirects(k, 11));
    FooChain(k, 11, 0);
    assert script + [] == script;
    FollowLoop(d, FooRedirects(k, 11), Foos(k, 11), [], 0);
    CollectFailure(d, script, 0, [], None);
  }

  /** `https://api.jdxcode.com:443/foo11`, written in the pieces `Urls.Render` joins. */
  lemma {:induction false} Foo11Text()
    ensures Urls.Render(Foo(11)) == "https://" + "api.jdxcode.com" + ":" + "443" + ("/foo" + "11")
  {
    Numeral443();
    Numeral11();
  }

  lemma {:induction false} Numeral11()
    ensures Decimal.Render(11) == "11"
  {
    assert Decimal.Render(1) == "1";
  }

  // ---------------------------------------------------------------- pagination

  /** `[1, 2, 3]` with `next-range: 4`, `[4, 5, 6]` with `next-range: 7`, and `[7, 8, 9]`. */
  const PAGE1: Reply := Reply(206, map["next-range" := "4"], Data(JArr([JNum(1), JNum(2), JNum(3)])))
  const PAGE2: Reply := Reply(206, map["next-range" := "7"], Data(JArr([JNum(4), JNum(5), JNum(6)])))
  const PAGE3: Reply := Reply(206, map[], Data(JArr([JNum(7), JNum(8), JNum(9)])))

  lemma {:induction false} ThreePages()
    ensures PageRun([PAGE1, PAGE2, PAGE3])
    ensures Bodies([PAGE1, PAGE2, PAGE3]) == [PAGE1.body, PAGE2.body, PAGE3.body]
  {
    var rs := [PAGE1, PAGE2, PAGE3];
    assert rs[1..] == [PAGE2, PAGE3] && rs[1..][1..] == [PAGE3];
    assert PageRun([PAGE3]);
    assert PageRun([PAGE2, PAGE3]);
    assert Bodies([PAGE3]) == [PAGE3.body];
    assert Bodies([PAGE2, PAGE3]) == [PAGE2.body, PAGE3.body];
  }

  lemma {:induction false} NineItems()
    ensures Merge([PAGE1.body, PAGE2.body, PAGE3.body])
              == Data(JArr([JNum(1), JNum(2), JNum(3), JNum(4), JNum(5), JNum(6), JNum(7), JNum(8), JNum(9)]))
  {
    var pages := [PAGE1.body, PAGE2.body, PAGE3.body];
    assert AllArrays(pages);
    assert pages[..2] == [PAGE1.body, PAGE2.body] && pages[..2][..1] == [PAGE1.body] && pages[..1][..0] == [];
    assert Flatten([PAGE1.body]) == [JNum(1), JNum(2), JNum(3)];
    assert Flatten([PAGE1.body, PAGE2.body]) == [JNum(1), JNum(2), JNum(3), JNum(4), JNum(5), JNum(6)];
    assert Flatten(pages) == Flatten(pages[..2]) + [JNum(7), JNum(8), JNum(9)];
    assert Flatten(pages) == [JNum(1), JNum(2), JNum(3), JNum(4), JNum(5), JNum(6), JNum(7), JNum(8), JNum(9)];
  }

  /** Three pages linked by `next-range`: the call returns the nine items in order under
      the first page's status and headers, and asks for the second and third pages with
      `range: 4` and `range: 7`. */
  lemma {:induction false} GetsNextBody(version: string, runtime: string)
    ensures var x := Collect(GetRoot(version, runtime), Replies([PAGE1, PAGE2, PAGE3]), 0, [], None);
      && x.result == Success(Response(206, PAGE1.headers,
                                      Data(JArr([JNum(1), JNum(2), JNum(3), JNum(4), JNum(5), JNum(6), JNum(7), JNum(8), JNum(9)]))))
      && |x.sent| == 3
      && "range" in x.sent[1].headers && x.sent[1].headers["range"] == "4"
      && "range" in x.sent[2].headers && x.sent[2].headers["range"] == "7"
  {
    var rs := [PAGE1, PAGE2, PAGE3];
    ThreePages();
    NineItems();
    assert Replies(rs) + [] == Replies(rs);
    CollectPages(GetRoot(version, runtime), rs, [], 0, [], None);
    CollectPagesRequests(GetRoot(version, runtime), rs, [], 0, [], None);
    assert [] + Bodies(rs) == Bodies(rs);
  }

  // ---------------------------------------------------------------- the class

  /** The constructor's JSON-body case, shown for `{foo: 'bar'}`: `new HTTP(url, {body})`
      leaves the serialised body, its content type and length in the request, and no
      response body. */
  method ConstructsJsonRequest(version: string, runtime: string) returns (http: HTTP)
    ensures http.requestBody == Some("{\"foo\":\"bar\"}")
    ensures Get(http.headers, "content-type") == Some("application/json")
    ensures Get(http.headers, "Content-Length") == Some("13")
    ensures http.body == None
  {
    var config := Config(None, [], version, runtime);
    var options := Options([], Some(FOO_BAR));
    WellKnownNames();
    BaseHeadersPrecedence(config, options, "content-type");
    http := new HTTP(POST, ROOT, config, options);
    PostsJsonBody(POST, version, runtime);
  }

  /** `get('https://api.jdxcode.com')` against four timeouts and a reply returns the reply's
      body, with the transport's script used up and five requests logged. */
  method GetsAfterRetries(version: string, runtime: string) returns (r: Result<Response, Error>, sent: nat)
    ensures r == Success(Response(200, map[], FOO.body)) && sent == 5
  {
    var script := Timeouts(4) + [Replied(FOO)];
    var transport := new ScriptedTransport(script);
    r := Perform(GET, "https://api.jdxcode.com", Config(None, [], version, runtime), Options([], None), transport);
    sent := |transport.sent|;
    GetRootCall(version, runtime, script);
    RetriesThenSucceeds(version, runtime);
  }
}
