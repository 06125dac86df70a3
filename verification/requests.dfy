/** The request builder: what `new HTTP(url, options)` makes of a caller's options before
    anything is sent. Headers are merged (user-agent, then the instance's default headers,
    then the caller's), and a body is either serialised as JSON under a defaulted
    `Content-Type: application/json`, or, when the caller chose a content type, sent as
    the caller's own text; either way `Content-Length` holds its UTF-8 byte count. */
module Requests {
  import opened Wrappers
  import opened HeaderMap
  import Json
  import Decimal
  import Urls

  datatype Method = GET | POST | PUT | PATCH | DELETE

  function MethodName(m: Method): string
  {
    match m
    case GET => "GET"
    case POST => "POST"
    case PUT => "PUT"
    case PATCH => "PATCH"
    case DELETE => "DELETE"
  }

  /** Configuration fixed when an instance class is made (`HTTP.defaults({host})`): an
      optional host for relative URLs, default headers, and the two versions the
      user-agent names: the package's (`package.json`) and the runtime's (`process.version`). */
  datatype Config = Config(host: Option<string>, headers: seq<(string, string)>, version: string, runtime: string)

  /** The options of one call: headers in the order written, and an optional body. */
  datatype Options = Options(headers: seq<(string, string)>, body: Option<Json.Json>)

  /** A request as it goes to the transport. */
  datatype Descriptor = Descriptor(verb: Method, url: Urls.Url, headers: Headers, body: Option<string>)

  /** `http-call/<version> node-<runtime version>`; both versions are supplied from outside. */
  function UserAgent(version: string, runtime: string): string
  {
    "http-call/" + version + " node-" + runtime
  }

  function BaseHeaders(config: Config, options: Options): (h: Headers)
    ensures Normalized(h)
  {
    UserAgentName();
    Overlay(Overlay(map["user-agent" := UserAgent(config.version, config.runtime)], config.headers), options.headers)
  }

  /** A body sent under a caller-chosen content type must already be text. */
  predicate Encodable(headers: Headers, body: Option<Json.Json>)
  {
    body.Some? && Has(headers, "content-type") ==> body.value.JStr?
  }

  /** The descriptor the constructor leaves behind. */
  function Build(verb: Method, url: Urls.Url, config: Config, options: Options): (d: Descriptor)
    requires Encodable(BaseHeaders(config, options), options.body)
    ensures d.verb == verb && d.url == url && Normalized(d.headers)
  {
    var base := BaseHeaders(config, options);
    match options.body
    case None => Descriptor(verb, url, base, None)
    case Some(value) =>
      var typed := if Has(base, "content-type") then base else Set(base, "content-type", "application/json");
      var text := if Has(base, "content-type") then value.s else Json.Stringify(value);
      Descriptor(verb, url, Set(typed, "content-length", Decimal.Render(Json.Utf8Length(text))), Some(text))
  }

  /** The base URL a relative path is resolved against. */
  function ConfiguredBase(config: Config): Option<Urls.Url>
  {
    match config.host
    case Some(h) => Some(Urls.Url(Urls.Https, h, 443, "/"))
    case None => None
  }

  /** The headers of a request: a caller header wins over an instance default of the same
      name in any letter case, and the user-agent is present unless one of them replaces it. */
  lemma {:induction false} BaseHeadersPrecedence(config: Config, options: Options, name: string)
    ensures Get(BaseHeaders(config, options), name) ==
              match LastMatch(options.headers, name)
              case Some(v) => Some(v)
              case None =>
                match LastMatch(config.headers, name)
                case Some(v) => Some(v)
                case None => if Lower(name) == "user-agent" then Some(UserAgent(config.version, config.runtime)) else None
  {
    var ua: Headers := map["user-agent" := UserAgent(config.version, config.runtime)];
    GetOverlay(Overlay(ua, config.headers), options.headers, name);
    GetOverlay(ua, config.headers, name);
  }

  /** A body without a content type is sent as its JSON serialisation, under
      `content-type: application/json`, with `Content-Length` reading back as the
      serialisation's byte count; every other header is as the caller left it. */
  lemma {:induction false} JsonBodyDefaults(verb: Method, url: Urls.Url, config: Config, options: Options)
    requires options.body.Some? && !Has(BaseHeaders(config, options), "content-type")
    ensures var d := Build(verb, url, config, options);
      var text := Json.Stringify(options.body.value);
      && d.body == Some(text)
      && Get(d.headers, "Content-Type") == Some("application/json")
      && Get(d.headers, "Content-Length").Some?
      && Decimal.Canonical(Get(d.headers, "Content-Length").value)
      && Decimal.Value(Get(d.headers, "Content-Length").value) == Json.Utf8Length(text)
      && forall other :: Lower(other) != "content-type" && Lower(other) != "content-length" ==>
           Get(d.headers, other) == Get(BaseHeaders(config, options), other)
  {
    WellKnownNames();
    Decimal.ValueOfRender(Json.Utf8Length(Json.Stringify(options.body.value)));
  }

  /** A body under a caller-chosen content type goes out verbatim, the content type is
      kept, and `Content-Length` reads back as the text's byte count. */
  lemma {:induction false} CustomContentTypeVerbatim(verb: Method, url: Urls.Url, config: Config, options: Options, text: string)
    requires options.body == Some(Json.JStr(text)) && Has(BaseHeaders(config, options), "content-type")
    ensures var d := Build(verb, url, config, options);
      && d.body == Some(text)
      && Get(d.headers, "content-type") == Get(BaseHeaders(config, options), "Content-Type")
      && Get(d.headers, "Content-Length").Some?
      && Decimal.Canonical(Get(d.headers, "Content-Length").value)
      && Decimal.Value(Get(d.headers, "Content-Length").value) == Json.Utf8Length(text)
      && forall other :: Lower(other) != "content-length" ==>
           Get(d.headers, other) == Get(BaseHeaders(config, options), other)
  {
    WellKnownNames();
    Decimal.ValueOfRender(Json.Utf8Length(text));
  }

  /** Without a body nothing is sent as a body and the headers are the merged ones. */
  lemma {:induction false} NoBodyNoPayload(verb: Method, url: Urls.Url, config: Config, options: Options)
    requires options.body.None?
    ensures var d := Build(verb, url, config, options);
      d.body.None? && d.headers == BaseHeaders(config, options)
  {
  }
}
