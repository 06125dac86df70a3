/** The redirect resolver. A 3xx reply with a `Location` header counts one hop and
    repeats the request at the new URL; method, headers and body stay as they were. The
    `Location` is read by `Urls.Parse`: an absolute URL as it is, a text starting with `/`
    as a new path on the current scheme, host and port, and any other text as a bare host. The hop count belongs to the whole
    call and at most ten hops are followed: the eleventh redirect reply fails the call
    with `Redirect loop at <url>`, naming the URL that sent it. Any other reply passes
    through. */
module Redirects {
  import opened Wrappers
  import opened HeaderMap
  import opened Requests
  import opened Responses
  import opened Retrying
  import Urls

  const MAX_REDIRECTS: nat := 10

  /** Response header names arrive in lower case, and are read that way. */
  predicate IsRedirect(r: Reply)
  {
    300 <= r.status < 400 && "location" in r.headers
  }

  function Location(r: Reply): string
    requires IsRedirect(r)
  {
    r.headers["location"]
  }

  /** The redirect-following part of a call: its result, the URL and hop count it ends
      with, the outcomes left unused, and the requests sent and waits made on the way. */
  datatype Hops = Hops(result: Result<Reply, Error>, url: Urls.Url, hops: nat,
                       rest: seq<Outcome>, sent: seq<Descriptor>, waits: seq<nat>)

  /** What a reply leads to: the end of the redirect handling, with its result and hop
      count, or one more hop to the URL named by `Location`. */
  datatype Step = Done(result: Result<Reply, Error>, hops: nat) | Go(next: Urls.Url)

  /** The decision taken on a reply from `url` after `hops` hops. */
  function Decide(reply: Reply, url: Urls.Url, hops: nat): (s: Step)
    ensures s.Go? <==> IsRedirect(reply) && hops < MAX_REDIRECTS
                       && Urls.Parse(Location(reply), Some(url)).Success?
    ensures s.Go? ==> Urls.Parse(Location(reply), Some(url)) == Success(s.next)
    ensures !IsRedirect(reply) ==> s == Done(Success(reply), hops)
    ensures IsRedirect(reply) && hops >= MAX_REDIRECTS ==> s == Done(Failure(RedirectLoop(url)), hops + 1)
    ensures s.Done? && IsRedirect(reply) ==> s.hops == hops + 1 && s.result.Failure?
  {
    if !IsRedirect(reply) then Done(Success(reply), hops)
    else if hops + 1 > MAX_REDIRECTS then Done(Failure(RedirectLoop(url)), hops + 1)
    else
      match Urls.Parse(Location(reply), Some(url))
      case Failure(reason) => Done(Failure(MalformedRequest(reason)), hops + 1)
      case Success(next) => Go(next)
  }

  /** `h` preceded by the requests `sent` and the waits `waits`. */
  function After(sent: seq<Descriptor>, waits: seq<nat>, h: Hops): (r: Hops)
    ensures r.result == h.result && r.url == h.url && r.hops == h.hops && r.rest == h.rest
    ensures r.sent == sent + h.sent && r.waits == waits + h.waits
  {
    Hops(h.result, h.url, h.hops, h.rest, sent + h.sent, waits + h.waits)
  }

  function Follow(d: Descriptor, script: seq<Outcome>, hops: nat): (h: Hops)
    ensures |h.rest| <= |script|
    ensures h.result.Success? ==> |h.rest| < |script| && !IsRedirect(h.result.value)
    ensures h.hops >= hops
    ensures |h.sent| > 0
    ensures hops <= MAX_REDIRECTS ==> h.hops <= MAX_REDIRECTS + 1
    ensures hops <= MAX_REDIRECTS && h.result.Success? ==> h.hops <= MAX_REDIRECTS
    decreases |script|
  {
    var a := Retry(d, script, 0);
    match a.result
    case Failure(e) => Hops(Failure(e), d.url, hops, a.rest, a.sent, a.waits)
    case Success(reply) =>
      match Decide(reply, d.url, hops)
      case Done(result, n) => Hops(result, d.url, n, a.rest, a.sent, a.waits)
      case Go(next) => After(a.sent, a.waits, Follow(d.(url := next), a.rest, hops + 1))
  }

  /** The outcomes a chain of replies is delivered as. */
  function Replies(rs: seq<Reply>): (s: seq<Outcome>)
    ensures |s| == |rs|
    decreases |rs|
  {
    if rs == [] then [] else [Replied(rs[0])] + Replies(rs[1..])
  }

  /** The outcomes of a chain, followed by more, start with its first reply. */
  lemma {:induction false} RepliesCons(rs: seq<Reply>, tail: seq<Outcome>)
    requires rs != []
    ensures Replies(rs) + tail == [Replied(rs[0])] + (Replies(rs[1..]) + tail)
  {
  }

  /** `rs[i]` redirects from `urls[i]` to `urls[i + 1]`. */
  predicate Chain(rs: seq<Reply>, urls: seq<Urls.Url>)
    requires |urls| >= |rs|
    decreases |rs|
  {
    rs == [] ||
    (&& IsRedirect(rs[0])
     && (1 < |urls| ==> Urls.Parse(Location(rs[0]), Some(urls[0])) == Success(urls[1]))
     && Chain(rs[1..], urls[1..]))
  }

  /** The requests a chain of redirects makes: `d`, sent to each URL in turn. */
  function Visits(d: Descriptor, urls: seq<Urls.Url>): (v: seq<Descriptor>)
    ensures |v| == |urls|
    decreases |urls|
  {
    if urls == [] then [] else [d.(url := urls[0])] + Visits(d, urls[1..])
  }

  /** Which URL a request was sent to before does not matter for the visits. */
  lemma {:induction false} VisitsFrom(d: Descriptor, e: Descriptor, urls: seq<Urls.Url>)
    requires e == d.(url := e.url)
    ensures Visits(e, urls) == Visits(d, urls)
    decreases |urls|
  {
    if urls != [] {
      VisitsFrom(d, e, urls[1..]);
    }
  }

  /** One reply at the head of the script, unfolded: the decision taken on it ends the
      redirect handling or leads to the next URL, after one request and no wait. */
  lemma {:induction false} FollowReply(d: Descriptor, r: Reply, rest: seq<Outcome>, hops: nat)
    ensures var s := Decide(r, d.url, hops);
      Follow(d, [Replied(r)] + rest, hops) ==
        if s.Done? then Hops(s.result, d.url, s.hops, rest, [d], [])
        else After([d], [], Follow(d.(url := s.next), rest, hops + 1))
  {
    var script := [Replied(r)] + rest;
    assert Next(script) == Replied(r) && Rest(script) == rest;
    assert Retry(d, script, 0) == Attempts(Success(r), rest, [d], []);
  }

  /** A round of attempts that ends in a reply other than a redirect ends the redirect
      handling with that reply, at the same URL and hop count, after the round's requests
      and waits. */
  lemma {:induction false} FollowSettles(d: Descriptor, script: seq<Outcome>, hops: nat)
    requires Retry(d, script, 0).result.Success? && !IsRedirect(Retry(d, script, 0).result.value)
    ensures var a := Retry(d, script, 0);
      Follow(d, script, hops) == Hops(a.result, d.url, hops, a.rest, a.sent, a.waits)
  {
  }

  /** A round of attempts that fails ends the redirect handling with that failure. */
  lemma {:induction false} FollowFails(d: Descriptor, script: seq<Outcome>, hops: nat)
    requires Retry(d, script, 0).result.Failure?
    ensures var a := Retry(d, script, 0);
      Follow(d, script, hops) == Hops(a.result, d.url, hops, a.rest, a.sent, a.waits)
  {
  }

  /** A reply that is not a redirect ends the redirect handling with that reply. */
  lemma {:induction false} FollowEnd(d: Descriptor, r: Reply, rest: seq<Outcome>, hops: nat)
    requires !IsRedirect(r)
    ensures Follow(d, [Replied(r)] + rest, hops) == Hops(Success(r), d.url, hops, rest, [d], [])
  {
    FollowReply(d, r, rest, hops);
  }

  /** A redirect within the budget to a readable location leads to the same request at
      the new URL, one hop further on. */
  lemma {:induction false} FollowHop(d: Descriptor, r: Reply, rest: seq<Outcome>, hops: nat, next: Urls.Url)
    requires IsRedirect(r) && hops < MAX_REDIRECTS
    requires Urls.Parse(Location(r), Some(d.url)) == Success(next)
    ensures Follow(d, [Replied(r)] + rest, hops) == After([d], [], Follow(d.(url := next), rest, hops + 1))
  {
    FollowReply(d, r, rest, hops);
  }

  /** `rs` is a chain of redirects from the URL of `d` through `urls` that stays within
      the budget, starting after `hops` hops. */
  predicate WithinBudget(d: Descriptor, rs: seq<Reply>, urls: seq<Urls.Url>, hops: nat)
  {
    |urls| == |rs| + 1 && urls[0] == d.url && Chain(rs, urls) && hops + |rs| <= MAX_REDIRECTS
  }

  /** A chain of redirects that stays within the budget is followed to the reply at its
      end; one request goes to each URL of the chain, in order, and the hops are counted. */
  lemma {:induction false} FollowChain(d: Descriptor, rs: seq<Reply>, urls: seq<Urls.Url>, last: Reply,
                                       tail: seq<Outcome>, hops: nat)
    requires WithinBudget(d, rs, urls, hops) && !IsRedirect(last)
    ensures Follow(d, Replies(rs) + ([Replied(last)] + tail), hops)
              == Hops(Success(last), urls[|rs|], hops + |rs|, tail, Visits(d, urls), [])
    decreases |rs|
  {
    if rs == [] {
      FollowChainEnd(d, urls, last, tail, hops);
    } else {
      FollowChain(d.(url := urls[1]), rs[1..], urls[1..], last, tail, hops + 1);
      FollowChainStep(d, rs, urls, last, tail, hops);
    }
  }

  /** The end of a chain: the reply that is not a redirect, from the last URL. */
  lemma {:induction false} FollowChainEnd(d: Descriptor, urls: seq<Urls.Url>, last: Reply, tail: seq<Outcome>, hops: nat)
    requires |urls| == 1 && urls[0] == d.url
    requires !IsRedirect(last)
    ensures Follow(d, Replies([]) + ([Replied(last)] + tail), hops)
              == Hops(Success(last), urls[0], hops, tail, Visits(d, urls), [])
  {
    FollowEnd(d, last, tail, hops);
    assert Replies([]) + ([Replied(last)] + tail) == [Replied(last)] + tail;
    assert Visits(d, urls) == [d.(url := urls[0])] + Visits(d, []);
  }

  /** The first hop of a chain: the request to the first URL, followed by what the rest
      of the chain does from the second. */
  lemma {:induction false} FollowChainStep(d: Descriptor, rs: seq<Reply>, urls: seq<Urls.Url>, last: Reply,
                                           tail: seq<Outcome>, hops: nat)
    requires WithinBudget(d, rs, urls, hops) && rs != []
    requires Follow(d.(url := urls[1]), Replies(rs[1..]) + ([Replied(last)] + tail), hops + 1)
               == Hops(Success(last), urls[1..][|rs[1..]|], hops + 1 + |rs[1..]|, tail, Visits(d.(url := urls[1]), urls[1..]), [])
    ensures Follow(d, Replies(rs) + ([Replied(last)] + tail), hops)
              == Hops(Success(last), urls[|rs|], hops + |rs|, tail, Visits(d, urls), [])
  {
    var rest := [Replied(last)] + tail;
    RepliesCons(rs, rest);
    FollowHop(d, rs[0], Replies(rs[1..]) + rest, hops, urls[1]);
    VisitsFrom(d, d.(url := urls[1]), urls[1..]);
    assert d.(url := urls[0]) == d;
    assert urls[1..][|rs| - 1] == urls[|rs|];
  }

  /** Eleven redirects in a row (counting those already followed) fail with a redirect
      loop naming the URL that sent the eleventh; one request went to each of those URLs
      and nothing after the eleventh reply is consumed. */
  lemma {:induction false} FollowLoop(d: Descriptor, rs: seq<Reply>, urls: seq<Urls.Url>, tail: seq<Outcome>, hops: nat)
    requires hops + |rs| == MAX_REDIRECTS + 1 && |rs| > 0
    requires |urls| == |rs| && urls[0] == d.url && Chain(rs, urls)
    ensures var h := Follow(d, Replies(rs) + tail, hops);
      && h.result == Failure(RedirectLoop(urls[|rs| - 1]))
      && Message(h.result.error) == "Redirect loop at " + Urls.Render(urls[|rs| - 1])
      && h.rest == tail
      && h.sent == Visits(d, urls)
    decreases |rs|
  {
    var rest := Replies(rs[1..]) + tail;
    RepliesCons(rs, tail);
    FollowReply(d, rs[0], rest, hops);
    assert d.(url := urls[0]) == d;
    if |rs| == 1 {
      assert Decide(rs[0], d.url, hops) == Done(Failure(RedirectLoop(d.url)), hops + 1);
      assert rest == tail;
      assert Visits(d, urls) == [d];
    } else {
      assert Decide(rs[0], d.url, hops) == Go(urls[1]);
      var d' := d.(url := urls[1]);
      FollowLoop(d', rs[1..], urls[1..], tail, hops + 1);
      VisitsFrom(d, d', urls[1..]);
    }
  }
}
