/** The pagination aggregator and the whole call. A reply below 400 that carries a
    `next-range` header asks for the next page: the same request is sent again (to the
    URL redirects led to) with a `range` header holding that token. Pages are collected
    in arrival order until a reply has no `next-range`; if every page is a JSON array
    the arrays are concatenated, otherwise the last page's body is kept. Status and
    headers are those of the first page. A reply of 400 or more on any page fails the
    whole call with an HTTP error, and no partial result is returned. */
module Pagination {
  import opened Wrappers
  import opened HeaderMap
  import opened Json
  import opened Requests
  import opened Responses
  import opened Retrying
  import opened Redirects
  import Urls
  import Seqs

  predicate AllArrays(pages: seq<Payload>)
  {
    forall i :: 0 <= i < |pages| ==> pages[i].Data? && pages[i].value.JArr?
  }

  /** The items of array pages, page after page. */
  function Flatten(pages: seq<Payload>): seq<Json>
    requires AllArrays(pages)
    decreases |pages|
  {
    if pages == [] then [] else Flatten(pages[..|pages| - 1]) + pages[|pages| - 1].value.items
  }

  /** The merged body of a paginated call. */
  function Merge(pages: seq<Payload>): Payload
    requires |pages| > 0
  {
    if AllArrays(pages) then Data(JArr(Flatten(pages))) else pages[|pages| - 1]
  }

  /** Every item of a flattened sequence of pages sits, in order, at the offset its page
      starts at plus its place within the page. */
  lemma {:induction false} FlattenAt(pages: seq<Payload>, p: nat, k: nat)
    requires AllArrays(pages) && p < |pages| && k < |pages[p].value.items|
    ensures |Flatten(pages[..p])| + k < |Flatten(pages)|
    ensures Flatten(pages)[|Flatten(pages[..p])| + k] == pages[p].value.items[k]
    decreases |pages|
  {
    var init := pages[..|pages| - 1];
    if p == |pages| - 1 {
      assert pages[..p] == init;
    } else {
      assert init[..p] == pages[..p];
      FlattenAt(init, p, k);
    }
  }

  /** A single page is delivered as it came. */
  lemma {:induction false} MergeOne(body: Payload)
    ensures Merge([body]) == body
  {
    if AllArrays([body]) {
      assert [body][0] == body;
      assert [body][..0] == [];
      assert Flatten([body]) == [] + body.value.items;
    }
  }

  /** The `next-range` token a reply carries, if any. */
  function NextRange(r: Reply): (t: Option<string>)
    ensures t.Some? <==> "next-range" in r.headers
  {
    if "next-range" in r.headers then Some(r.headers["next-range"]) else None
  }

  /** The request for the page a `next-range` token names: `range` is set to the token. */
  function WithRange(d: Descriptor, token: string): (e: Descriptor)
    ensures e.verb == d.verb && e.url == d.url && e.body == d.body
    ensures "range" in e.headers && e.headers["range"] == token
    ensures forall other :: Lower(other) != "range" ==> Get(e.headers, other) == Get(d.headers, other)
  {
    d.(headers := d.headers["range" := token])
  }

  /** The paginated part of a call: its result, the request it ends with (final URL and
      headers), the redirect hops counted, the outcomes left, requests sent and waits. */
  datatype Pages = Pages(result: Result<Response, Error>, desc: Descriptor, hops: nat,
                         rest: seq<Outcome>, sent: seq<Descriptor>, waits: seq<nat>)

  /** `p` preceded by the requests `sent` and the waits `waits`. */
  function Preceded(sent: seq<Descriptor>, waits: seq<nat>, p: Pages): (r: Pages)
    ensures r.result == p.result && r.desc == p.desc && r.hops == p.hops && r.rest == p.rest
    ensures r.sent == sent + p.sent && r.waits == waits + p.waits
  {
    Pages(p.result, p.desc, p.hops, p.rest, sent + p.sent, waits + p.waits)
  }

  /** The rest of a call from the request for one page on: redirects are followed,
      then the page is taken. */
  function Collect(d: Descriptor, script: seq<Outcome>, hops: nat, pages: seq<Payload>, first: Option<Reply>): (p: Pages)
    ensures |p.rest| <= |script|
    ensures p.desc.verb == d.verb && p.desc.body == d.body
    ensures |p.sent| > 0
    decreases |script|, 1
  {
    var h := Follow(d, script, hops);
    Preceded(h.sent, h.waits, Gather(d.(url := h.url), h.result, h.rest, h.hops, pages, first))
  }

  /** What becomes of the outcome of one request `d` (redirects followed): a failure ends
      the call, a reply of 400 or more fails it with an HTTP error, and a page is collected
      and either ends the call with the merged pages or leads to the next page. */
  function Gather(d: Descriptor, result: Result<Reply, Error>, rest: seq<Outcome>, hops: nat,
                  pages: seq<Payload>, first: Option<Reply>): (p: Pages)
    ensures |p.rest| <= |rest|
    ensures p.desc.verb == d.verb && p.desc.body == d.body
    decreases |rest| + (if result.Success? then 1 else 0), 0
  {
    match result
    case Failure(e) => Pages(Failure(e), d, hops, rest, [], [])
    case Success(reply) =>
      if reply.status >= 400 then
        Pages(Failure(HttpFailure(reply.status, d.verb, d.url, reply.body)), d, hops, rest, [], [])
      else
        var collected := pages + [reply.body];
        var head := if first.Some? then first.value else reply;
        match NextRange(reply)
        case None => Pages(Success(Response(head.status, head.headers, Merge(collected))), d, hops, rest, [], [])
        case Some(token) => Collect(WithRange(d, token), rest, hops, collected, Some(head))
  }

  /** When following redirects fails, the call fails with that error: no page is taken
      and nothing more is sent. */
  lemma {:induction false} CollectFailure(d: Descriptor, script: seq<Outcome>, hops: nat, pages: seq<Payload>, first: Option<Reply>)
    requires Follow(d, script, hops).result.Failure?
    ensures var h := Follow(d, script, hops);
      var p := Collect(d, script, hops, pages, first);
      p.result == Failure(h.result.error) && p.rest == h.rest && p.sent == h.sent && p.waits == h.waits
  {
    var h := Follow(d, script, hops);
    assert h.sent + [] == h.sent && h.waits + [] == h.waits;
  }

  /** When redirects lead to a reply of 400 or more, the call fails with the HTTP error
      for that reply, naming the URL it came from; pages already collected are dropped. */
  lemma {:induction false} CollectErrorStatus(d: Descriptor, script: seq<Outcome>, hops: nat, pages: seq<Payload>, first: Option<Reply>)
    requires var h := Follow(d, script, hops);
      h.result.Success? && h.result.value.status >= 400
    ensures var h := Follow(d, script, hops);
      var r := h.result.value;
      var p := Collect(d, script, hops, pages, first);
      && p.result == Failure(HttpFailure(r.status, d.verb, h.url, r.body))
      && p.rest == h.rest && p.sent == h.sent && p.waits == h.waits
  {
    var h := Follow(d, script, hops);
    assert h.sent + [] == h.sent && h.waits + [] == h.waits;
  }

  /** When redirects lead to a page without `next-range`, it is the last one: the call
      succeeds with the merged pages under the first page's status and headers. */
  lemma {:induction false} CollectLastPage(d: Descriptor, script: seq<Outcome>, hops: nat, pages: seq<Payload>, first: Option<Reply>)
    requires var h := Follow(d, script, hops);
      h.result.Success? && h.result.value.status < 400 && NextRange(h.result.value).None?
    ensures var h := Follow(d, script, hops);
      var head := if first.Some? then first.value else h.result.value;
      var p := Collect(d, script, hops, pages, first);
      && p.result == Success(Response(head.status, head.headers, Merge(pages + [h.result.value.body])))
      && p.rest == h.rest && p.hops == h.hops && p.sent == h.sent && p.waits == h.waits
  {
    var h := Follow(d, script, hops);
    assert h.sent + [] == h.sent && h.waits + [] == h.waits;
  }

  /** A whole call: what a caller gets for one request, the outcomes left, and the
      requests sent and waits made. */
  datatype Exchange = Exchange(result: Result<Response, Error>, rest: seq<Outcome>, sent: seq<Descriptor>, waits: seq<nat>)

  /** A call from the caller's method, URL text, instance configuration and options. A
      malformed URL, or a non-text body under a caller-chosen content type, fails before
      anything is sent. */
  function Run(verb: Method, target: string, config: Config, options: Options, script: seq<Outcome>): (x: Exchange)
    ensures x.sent == [] <==> Urls.Parse(target, ConfiguredBase(config)).Failure?
                               || !Encodable(BaseHeaders(config, options), options.body)
    ensures x.sent == [] ==> x.result.Failure? && x.result.error.MalformedRequest? && x.rest == script
  {
    match Urls.Parse(target, ConfiguredBase(config))
    case Failure(reason) => Exchange(Failure(MalformedRequest(reason)), script, [], [])
    case Success(url) =>
      if !Encodable(BaseHeaders(config, options), options.body) then
        Exchange(Failure(MalformedRequest("a body sent with a Content-Type must be a string")), script, [], [])
      else
        var p := Collect(Build(verb, url, config, options), script, 0, [], None);
        Exchange(p.result, p.rest, p.sent, p.waits)
  }

  /** A page reply: below 400 and not a redirect. */
  predicate IsPage(r: Reply)
  {
    r.status < 400 && !IsRedirect(r)
  }

  /** One page reply, unfolded: it is collected, and either ends the call or leads to a
      request for the next page carrying its token in `range`. */
  lemma {:induction false} CollectStep(d: Descriptor, r: Reply, rest: seq<Outcome>, hops: nat, pages: seq<Payload>, first: Option<Reply>)
    requires IsPage(r)
    ensures var p := Collect(d, [Replied(r)] + rest, hops, pages, first);
      var head := if first.Some? then first.value else r;
      match NextRange(r)
      case None => p == Pages(Success(Response(head.status, head.headers, Merge(pages + [r.body]))), d, hops, rest, [d], [])
      case Some(token) =>
        var q := Collect(WithRange(d, token), rest, hops, pages + [r.body], Some(head));
        p == Pages(q.result, q.desc, q.hops, q.rest, [d] + q.sent, q.waits)
  {
    FollowReply(d, r, rest, hops);
    assert Decide(r, d.url, hops) == Done(Success(r), hops);
    assert d.(url := d.url) == d;
  }

  /** The requirements on a run of page replies: each is a page, each but the last
      announces a next one, and the last does not. */
  predicate PageRun(rs: seq<Reply>)
    decreases |rs|
  {
    && |rs| > 0
    && IsPage(rs[0])
    && if |rs| == 1 then NextRange(rs[0]).None? else NextRange(rs[0]).Some? && PageRun(rs[1..])
  }

  /** The bodies of the replies, in order. */
  function Bodies(rs: seq<Reply>): (b: seq<Payload>)
    ensures |b| == |rs|
    decreases |rs|
  {
    if rs == [] then [] else [rs[0].body] + Bodies(rs[1..])
  }

  /** What a run of pages delivers: a success with the status and headers of `head` and
      the merged `bodies`, with the outcomes `tail` left over, `hops` hops counted, no
      wait and `n` requests sent. */
  predicate Delivered(p: Pages, head: Reply, bodies: seq<Payload>, tail: seq<Outcome>, hops: nat, n: nat)
    requires |bodies| > 0
  {
    && p.result == Success(Response(head.status, head.headers, Merge(bodies)))
    && p.rest == tail && p.hops == hops && p.waits == [] && |p.sent| == n
  }

  /** Pages that each announce a next one, except the last, are all fetched: the call
      returns the first page's status and headers with the pages merged in arrival order,
      and nothing after the last page is used. */
  lemma {:induction false} CollectPages(d: Descriptor, rs: seq<Reply>, tail: seq<Outcome>, hops: nat,
                                        pages: seq<Payload>, first: Option<Reply>)
    requires PageRun(rs)
    ensures Delivered(Collect(d, Replies(rs) + tail, hops, pages, first),
                      if first.Some? then first.value else rs[0], pages + Bodies(rs), tail, hops, |rs|)
    decreases |rs|
  {
    if |rs| > 1 {
      var head := if first.Some? then first.value else rs[0];
      CollectPages(WithRange(d, NextRange(rs[0]).value), rs[1..], tail, hops, pages + [rs[0].body], Some(head));
      CollectPagesStep(d, rs, tail, hops, pages, first);
    } else {
      CollectPagesLast(d, rs, tail, hops, pages, first);
    }
  }

  /** The last page of a run: it is collected and ends the call. */
  lemma {:induction false} CollectPagesLast(d: Descriptor, rs: seq<Reply>, tail: seq<Outcome>, hops: nat,
                                            pages: seq<Payload>, first: Option<Reply>)
    requires |rs| == 1 && IsPage(rs[0]) && NextRange(rs[0]).None?
    ensures Delivered(Collect(d, Replies(rs) + tail, hops, pages, first),
                      if first.Some? then first.value else rs[0], pages + Bodies(rs), tail, hops, |rs|)
  {
    RepliesCons(rs, tail);
    CollectStep(d, rs[0], Replies(rs[1..]) + tail, hops, pages, first);
    assert Bodies(rs) == [rs[0].body] + Bodies([]);
  }

  /** The first page of a run, followed by what the rest of the run delivers. */
  lemma {:induction false} CollectPagesStep(d: Descriptor, rs: seq<Reply>, tail: seq<Outcome>, hops: nat,
                                            pages: seq<Payload>, first: Option<Reply>)
    requires PageRun(rs) && |rs| > 1
    requires var head := if first.Some? then first.value else rs[0];
      Delivered(Collect(WithRange(d, NextRange(rs[0]).value), Replies(rs[1..]) + tail, hops, pages + [rs[0].body], Some(head)),
                head, pages + [rs[0].body] + Bodies(rs[1..]), tail, hops, |rs| - 1)
    ensures Delivered(Collect(d, Replies(rs) + tail, hops, pages, first),
                      if first.Some? then first.value else rs[0], pages + Bodies(rs), tail, hops, |rs|)
  {
    RepliesCons(rs, tail);
    CollectStep(d, rs[0], Replies(rs[1..]) + tail, hops, pages, first);
    Seqs.AppendAssoc(pages, [rs[0].body], Bodies(rs[1..]));
  }

  /** The requests of a run of pages: as many as pages, the first being `d`, all to the
      URL of `d` with its method and body, and each after the first carrying the headers
      of `d` with only `range` set, to the `next-range` token of the page before. */
  predicate PageRequests(sent: seq<Descriptor>, d: Descriptor, rs: seq<Reply>)
  {
    && |sent| == |rs| && |sent| > 0 && sent[0] == d
    && (forall i :: 0 <= i < |sent| ==> sent[i].url == d.url && sent[i].verb == d.verb && sent[i].body == d.body)
    && (forall i :: 0 < i < |sent| ==> "range" in sent[i].headers && Some(sent[i].headers["range"]) == NextRange(rs[i - 1]))
    && (forall i :: 0 < i < |sent| ==> sent[i].headers == d.headers["range" := sent[i].headers["range"]])
  }

  /** Page `i + 1` is requested with `range` set to page `i`'s `next-range` token, at the
      same URL and with the same method, body and other headers as the first request. */
  lemma {:induction false} CollectPagesRequests(d: Descriptor, rs: seq<Reply>, tail: seq<Outcome>, hops: nat,
                                                pages: seq<Payload>, first: Option<Reply>)
    requires PageRun(rs)
    ensures PageRequests(Collect(d, Replies(rs) + tail, hops, pages, first).sent, d, rs)
    decreases |rs|
  {
    RepliesCons(rs, tail);
    CollectStep(d, rs[0], Replies(rs[1..]) + tail, hops, pages, first);
    if |rs| > 1 {
      var head := if first.Some? then first.value else rs[0];
      var d' := WithRange(d, NextRange(rs[0]).value);
      CollectPagesRequests(d', rs[1..], tail, hops, pages + [rs[0].body], Some(head));
      PageRequestsCons(d, d', rs, Collect(d', Replies(rs[1..]) + tail, hops, pages + [rs[0].body], Some(head)).sent);
    }
  }

  /** The requests of a run are `d` followed by those of the rest of the run, which start
      from `d` with the first page's token in `range`. */
  lemma {:induction false} PageRequestsCons(d: Descriptor, d': Descriptor, rs: seq<Reply>, sent: seq<Descriptor>)
    requires |rs| > 1 && NextRange(rs[0]).Some? && d' == WithRange(d, NextRange(rs[0]).value)
    requires PageRequests(sent, d', rs[1..])
    ensures PageRequests([d] + sent, d, rs)
  {
    var all := [d] + sent;
    forall i | 0 < i < |all|
      ensures "range" in all[i].headers && Some(all[i].headers["range"]) == NextRange(rs[i - 1])
      ensures all[i].headers == d.headers["range" := all[i].headers["range"]]
    {
      assert all[i] == sent[i - 1];
      if i > 1 {
        assert rs[1..][i - 2] == rs[i - 1];
        var t := sent[i - 1].headers["range"];
        assert d'.headers["range" := t] == d.headers["range" := t];
      }
    }
  }

  /** A whole call whose URL reads and whose replies are a run of pages: it returns the
      first page's status and headers with every page merged, sends one request per page
      (the first being the built request), and leaves the outcomes after the last page. */
  lemma {:induction false} RunPages(verb: Method, target: string, config: Config, options: Options,
                                    url: Urls.Url, rs: seq<Reply>, tail: seq<Outcome>)
    requires Urls.Parse(target, ConfiguredBase(config)) == Success(url)
    requires Encodable(BaseHeaders(config, options), options.body)
    requires PageRun(rs)
    ensures var x := Run(verb, target, config, options, Replies(rs) + tail);
      && x.result == Success(Response(rs[0].status, rs[0].headers, Merge(Bodies(rs))))
      && x.rest == tail && x.waits == []
      && PageRequests(x.sent, Build(verb, url, config, options), rs)
  {
    var d := Build(verb, url, config, options);
    CollectPages(d, rs, tail, 0, [], None);
    CollectPagesRequests(d, rs, tail, 0, [], None);
    assert [] + Bodies(rs) == Bodies(rs);
  }
}
