/** The `HTTP` class: the constructor prepares the request in place, and `Request` drives
    the call through pagination, redirects and retries against a transport. Each method is
    proved to do what the corresponding function of the specification says. */
module Client {
  import opened Wrappers
  import opened HeaderMap
  import Json
  import Decimal
  import Urls
  import opened Requests
  import opened Responses
  import opened Retrying
  import opened Redirects
  import opened Pagination
  import opened Transport
  import Seqs

  class HTTP {
    var verb: Method
    var url: Urls.Url
    /** `options.headers`: the request headers, names in lower case. */
    var headers: Headers
    /** `options.body`: the body as it is sent. */
    var requestBody: Option<string>
    /** The decoded response body; cleared until a call succeeds. */
    var body: Option<Payload>
    var statusCode: Option<nat>
    var responseHeaders: Headers
    /** The redirect hops followed so far in this call. */
    var redirects: nat
    /** The retry numbers the wait hook was called with, in order. */
    var waits: seq<nat>

    function Current(): Descriptor
      reads this`verb, this`url, this`headers, this`requestBody
    {
      Descriptor(verb, url, headers, requestBody)
    }

    constructor (verb: Method, url: Urls.Url, config: Config, options: Options)
      requires Encodable(BaseHeaders(config, options), options.body)
      ensures Current() == Build(verb, url, config, options)
      ensures body == None && statusCode == None && responseHeaders == map[]
      ensures redirects == 0 && waits == []
    {
      var h := BaseHeaders(config, options);
      var text: Option<string> := None;
      match options.body {
        case None =>
        case Some(value) =>
          if Has(h, "content-type") {
            text := Some(value.s);
          } else {
            h := Set(h, "content-type", "application/json");
            text := Some(Json.Stringify(value));
          }
          h := Set(h, "content-length", Decimal.Render(Json.Utf8Length(text.value)));
      }
      this.verb := verb;
      this.url := url;
      headers := h;
      requestBody := text;
      body := None;
      statusCode := None;
      responseHeaders := map[];
      redirects := 0;
      waits := [];
    }

    /** The wait hook, called once before each retry with the retry's number. */
    method Wait(retry: nat)
      modifies this`waits
      ensures waits == old(waits) + [retry]
    {
      waits := waits + [retry];
    }

    /** One round of attempts with retries. */
    method Attempt(transport: ScriptedTransport) returns (r: Result<Reply, Error>)
      modifies this`waits, transport
      ensures var a := Retry(Current(), old(transport.script), 0);
        && r == a.result && transport.script == a.rest
        && transport.sent == old(transport.sent) + a.sent && waits == old(waits) + a.waits
    {
      var retries := 0;
      while true
        invariant var a0 := Retry(Current(), old(transport.script), 0);
          var a := Retry(Current(), transport.script, retries);
          && a.result == a0.result && a.rest == a0.rest
          && old(transport.sent) + a0.sent == transport.sent + a.sent
          && old(waits) + a0.waits == waits + a.waits
        decreases |transport.script|
      {
        ghost var script, sent, waited := transport.script, transport.sent, waits;
        var o := transport.Send(Current());
        match o {
          case Replied(reply) =>
            return Success(reply);
          case Failed(code, message) =>
            if retries < MAX_RETRIES && Retryable(code) {
              UnscriptedIsFinal();
              retries := retries + 1;
              Wait(retries);
              ghost var a := Retry(Current(), transport.script, retries);
              Seqs.AppendAssoc(sent, [Current()], a.sent);
              Seqs.AppendAssoc(waited, [retries], a.waits);
            } else {
              return Failure(TransportFailure(code, message));
            }
        }
      }
    }

    /** Attempts, following redirects: on a redirect the URL is replaced and the
        request made again. */
    method FollowRedirects(transport: ScriptedTransport) returns (r: Result<Reply, Error>)
      modifies this`url, this`redirects, this`waits, transport
      ensures var h := Follow(old(Current()), old(transport.script), old(redirects));
        && r == h.result && url == h.url && redirects == h.hops && transport.script == h.rest
        && transport.sent == old(transport.sent) + h.sent && waits == old(waits) + h.waits
      decreases |transport.script|
    {
      ghost var a := Retry(Current(), transport.script, 0);
      r := Attempt(transport);
      if r.Success? {
        match Decide(r.value, url, redirects) {
          case Done(result, n) =>
            r, redirects := result, n;
          case Go(next) =>
            url, redirects := next, redirects + 1;
            ghost var h := Follow(Current(), transport.script, redirects);
            r := FollowRedirects(transport);
            Seqs.AppendAssoc(old(transport.sent), a.sent, h.sent);
            Seqs.AppendAssoc(old(waits), a.waits, h.waits);
        }
      }
    }

    /** The pages from here on, `pages` already collected and `first` the first page's
        reply if there was one: the request is made, following redirects, and the page
        it yields is taken. */
    method Paginate(transport: ScriptedTransport, pages: seq<Payload>, first: Option<Reply>)
      returns (r: Result<Response, Error>)
      modifies this, transport
      ensures var p := Collect(old(Current()), old(transport.script), old(redirects), pages, first);
        && r == p.result && Current() == p.desc && redirects == p.hops
        && transport.script == p.rest && transport.sent == old(transport.sent) + p.sent
        && waits == old(waits) + p.waits
      ensures r.Success? ==> body == Some(r.value.body) && statusCode == Some(r.value.statusCode)
                             && responseHeaders == r.value.headers
      ensures r.Failure? ==> body == old(body) && statusCode == old(statusCode)
                             && responseHeaders == old(responseHeaders)
      decreases |transport.script|, 1
    {
      ghost var h := Follow(Current(), transport.script, redirects);
      var reply := FollowRedirects(transport);
      ghost var g := Gather(Current(), reply, transport.script, redirects, pages, first);
      r := TakePage(transport, reply, pages, first);
      Seqs.AppendAssoc(old(transport.sent), h.sent, g.sent);
      Seqs.AppendAssoc(old(waits), h.waits, g.waits);
    }

    /** What becomes of the outcome of one request: a failure ends the call, a reply of
        400 or more fails it with an HTTP error, and a page is collected; if it carries
        `next-range` the request is repeated with that token in `range`, otherwise the
        merged body, first status and first headers are stored. */
    method TakePage(transport: ScriptedTransport, reply: Result<Reply, Error>, pages: seq<Payload>, first: Option<Reply>)
      returns (r: Result<Response, Error>)
      modifies this, transport
      ensures var p := Gather(old(Current()), reply, old(transport.script), old(redirects), pages, first);
        && r == p.result && Current() == p.desc && redirects == p.hops
        && transport.script == p.rest && transport.sent == old(transport.sent) + p.sent
        && waits == old(waits) + p.waits
      ensures r.Success? ==> body == Some(r.value.body) && statusCode == Some(r.value.statusCode)
                             && responseHeaders == r.value.headers
      ensures r.Failure? ==> body == old(body) && statusCode == old(statusCode)
                             && responseHeaders == old(responseHeaders)
      decreases |transport.script| + (if reply.Success? then 1 else 0), 0
    {
      if reply.Failure? {
        return Failure(reply.error);
      }
      var page := reply.value;
      if page.status >= 400 {
        return Failure(HttpFailure(page.status, verb, url, page.body));
      }
      var head := if first.Some? then first.value else page;
      match NextRange(page) {
        case None =>
          var merged := Merge(pages + [page.body]);
          body, statusCode, responseHeaders := Some(merged), Some(head.status), head.headers;
          return Success(Response(head.status, head.headers, merged));
        case Some(token) =>
          headers := headers["range" := token];
          r := Paginate(transport, pages + [page.body], Some(head));
      }
    }

    /** The whole call: pages are fetched until one has no `next-range`; on success the
        merged body, first status and first headers are stored on the instance. */
    method Request(transport: ScriptedTransport) returns (r: Result<Response, Error>)
      modifies this, transport
      ensures var p := Collect(old(Current()), old(transport.script), old(redirects), [], None);
        && r == p.result && Current() == p.desc && redirects == p.hops
        && transport.script == p.rest && transport.sent == old(transport.sent) + p.sent
        && waits == old(waits) + p.waits
      ensures r.Success? ==> body == Some(r.value.body) && statusCode == Some(r.value.statusCode)
                             && responseHeaders == r.value.headers
      ensures r.Failure? ==> body == old(body) && statusCode == old(statusCode)
                             && responseHeaders == old(responseHeaders)
    {
      r := Paginate(transport, [], None);
    }
  }

  /** One call as a caller makes it (`get(url, options)` and its siblings): the URL is
      read, the request built, and the call run. */
  method Perform(verb: Method, target: string, config: Config, options: Options, transport: ScriptedTransport)
    returns (r: Result<Response, Error>)
    modifies transport
    ensures var x := Run(verb, target, config, options, old(transport.script));
      && r == x.result && transport.script == x.rest && transport.sent == old(transport.sent) + x.sent
  {
    var parsed := Urls.Parse(target, ConfiguredBase(config));
    if parsed.Failure? {
      return Failure(MalformedRequest(parsed.error));
    }
    if !Encodable(BaseHeaders(config, options), options.body) {
      return Failure(MalformedRequest("a body sent with a Content-Type must be a string"));
    }
    var http := new HTTP(verb, parsed.value, config, options);
    r := http.Request(transport);
  }
}
