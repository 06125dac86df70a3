/** The response decoder's vocabulary: decoded bodies, replies, the caller's response, the
    error taxonomy, and the message an HTTP error carries:
      HTTP Error <status> for <METHOD> <url with port>
      <the body's `message` field, or its raw text, or its structural rendering> */
module Responses {
  import opened Wrappers
  import opened HeaderMap
  import opened Json
  import Decimal
  import Strings
  import Urls
  import opened Requests

  /** A body after decoding: the JSON value it parsed to, or its raw text when it is not JSON. */
  datatype Payload = Text(text: string) | Data(value: Json)

  /** One reply from the transport: status, headers (names in lower case) and decoded body. */
  datatype Reply = Reply(status: nat, headers: Headers, body: Payload)

  /** What a successful call hands back. */
  datatype Response = Response(statusCode: nat, headers: Headers, body: Payload)

  datatype Error =
    | MalformedRequest(reason: string)
    | TransportFailure(code: string, message: string)
    | RedirectLoop(url: Urls.Url)
    | HttpError(statusCode: nat, message: string, body: Payload)

  function Message(e: Error): string
  {
    match e
    case MalformedRequest(reason) => reason
    case TransportFailure(_, message) => message
    case RedirectLoop(url) => "Redirect loop at " + Urls.Render(url)
    case HttpError(_, message, _) => message
  }

  /** The `message` member of an object body, when it is a string. */
  function MessageField(j: Json): Option<string>
  {
    if j.JObj? then
      match Lookup(j.fields, "message")
      case Some(JStr(m)) => Some(m)
      case _ => None
    else None
  }

  /** The line under the headline: the raw text of a non-JSON body, a string body as it
      is, the body's `message` field verbatim, or else the structural rendering. */
  function Detail(body: Payload): string
  {
    match body
    case Text(t) => t
    case Data(JStr(s)) => s
    case Data(j) =>
      match MessageField(j)
      case Some(m) => m
      case None => Inspect(j)
  }

  function Headline(status: nat, verb: Method, url: Urls.Url): string
  {
    "HTTP Error " + Decimal.Render(status) + " for " + MethodName(verb) + " " + Urls.Render(url)
  }

  /** The error a reply with status 400 or more becomes. */
  function HttpFailure(status: nat, verb: Method, url: Urls.Url, body: Payload): (e: Error)
    ensures e.HttpError? && e.statusCode == status && e.body == body
  {
    HttpError(status, Headline(status, verb, url) + "\n" + Detail(body), body)
  }

  /** The text after the first line break. */
  function AfterFirstLine(s: string): string
  {
    var k := Strings.IndexOf(s, '\n');
    if k == |s| then "" else s[k + 1..]
  }

  /** The text before the first line break. */
  function FirstLine(s: string): string
  {
    s[..Strings.IndexOf(s, '\n')]
  }

  predicate SingleLine(s: string)
  {
    forall i :: 0 <= i < |s| ==> s[i] != '\n'
  }

  lemma {:induction false} SingleLineConcat(a: string, b: string)
    requires SingleLine(a) && SingleLine(b)
    ensures SingleLine(a + b)
  {
    forall i | 0 <= i < |a + b| ensures (a + b)[i] != '\n' {
      if i < |a| { assert (a + b)[i] == a[i]; } else { assert (a + b)[i] == b[i - |a|]; }
    }
  }

  lemma {:induction false} HeadlineSingleLine(status: nat, verb: Method, url: Urls.Url)
    requires SingleLine(url.host) && SingleLine(url.path)
    ensures SingleLine(Headline(status, verb, url))
  {
    var digits := Decimal.Render(status);
    var port := Decimal.Render(url.port);
    assert SingleLine(digits) && SingleLine(port);
    SingleLineConcat("HTTP Error ", digits);
    SingleLineConcat("HTTP Error " + digits, " for ");
    SingleLineConcat("HTTP Error " + digits + " for ", MethodName(verb));
    SingleLineConcat("HTTP Error " + digits + " for " + MethodName(verb), " ");
    SingleLineConcat(Urls.Prefix(url.scheme), url.host);
    SingleLineConcat(Urls.Prefix(url.scheme) + url.host, ":");
    SingleLineConcat(Urls.Prefix(url.scheme) + url.host + ":", port);
    SingleLineConcat(Urls.Prefix(url.scheme) + url.host + ":" + port, url.path);
    SingleLineConcat("HTTP Error " + digits + " for " + MethodName(verb) + " ", Urls.Render(url));
  }

  /** An HTTP error's message splits at its first line break into the headline naming the
      status, method and URL, and the body-derived detail, whatever the detail contains. */
  lemma {:induction false} HttpFailureLines(status: nat, verb: Method, url: Urls.Url, body: Payload)
    requires SingleLine(url.host) && SingleLine(url.path)
    ensures var m := Message(HttpFailure(status, verb, url, body));
      FirstLine(m) == Headline(status, verb, url) && AfterFirstLine(m) == Detail(body)
  {
    var h := Headline(status, verb, url);
    HeadlineSingleLine(status, verb, url);
    var m := h + "\n" + Detail(body);
    Strings.IndexOfAfter(h, "\n" + Detail(body), '\n');
    assert m == h + ("\n" + Detail(body));
    assert m[..|h|] == h;
    assert m[|h| + 1..] == Detail(body);
  }

  /** Which line stands under the headline, case by case: an object's `message` string
      is used exactly when there is one, and otherwise the whole body is rendered. */
  lemma {:induction false} DetailChoice(j: Json)
    requires !j.JStr?
    ensures MessageField(j).Some? ==> Detail(Data(j)) == MessageField(j).value
    ensures MessageField(j).None? ==> Detail(Data(j)) == Inspect(j)
    ensures MessageField(j).Some? <==>
              j.JObj? && HasKey(j.fields, "message") && Lookup(j.fields, "message").value.JStr?
  {
  }
}
