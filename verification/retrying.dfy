/** The retry controller. One round sends the same request until the transport replies;
    a failure whose code is transient is retried, at most five times after the first
    attempt, with one call to the wait hook before each retry; any other failure, or the
    sixth transient one, ends the round with that failure's code and message. */
module Retrying {
  import opened Wrappers
  import opened Requests
  import opened Responses
  import Seqs

  const MAX_RETRIES: nat := 5

  /** Transient transport codes: timeout, connection reset, DNS resolution failure,
      connection refused, broken pipe, host unreachable, and a repeated DNS lookup. */
  const TRANSIENT_CODES: set<string> :=
    {"ETIMEDOUT", "ECONNRESET", "ENOTFOUND", "ECONNREFUSED", "EPIPE", "EHOSTUNREACH", "EAI_AGAIN"}

  predicate Retryable(code: string)
  {
    code in TRANSIENT_CODES
  }

  /** What the transport does with one attempt: it replies, or fails with an error code. */
  datatype Outcome = Replied(reply: Reply) | Failed(code: string, message: string)

  /** The outcome of an attempt once the scripted outcomes are used up: the network is
      unreachable, which is not a transient failure. */
  const UNSCRIPTED: Outcome := Failed("ENETUNREACH", "no scripted response for this request")

  /** Running out of scripted outcomes is not retried. */
  lemma {:induction false} UnscriptedIsFinal()
    ensures !Transient(UNSCRIPTED)
  {
  }

  function Next(script: seq<Outcome>): Outcome
  {
    if script == [] then UNSCRIPTED else script[0]
  }

  function Rest(script: seq<Outcome>): (r: seq<Outcome>)
    ensures script != [] ==> |r| < |script|
  {
    if script == [] then [] else script[1..]
  }

  predicate Transient(o: Outcome)
  {
    o.Failed? && Retryable(o.code)
  }

  /** One round of attempts: its result, the outcomes left unused, the requests sent and
      the retry numbers the wait hook was called with. */
  datatype Attempts = Attempts(result: Result<Reply, Error>, rest: seq<Outcome>, sent: seq<Descriptor>, waits: seq<nat>)

  function Retry(d: Descriptor, script: seq<Outcome>, retries: nat): (a: Attempts)
    ensures |a.rest| <= |script|
    ensures a.result.Success? ==> |a.rest| < |script|
    ensures a.result.Failure? ==> a.result.error.TransportFailure?
    ensures |a.sent| == |a.waits| + 1
    ensures retries <= MAX_RETRIES ==> |a.sent| <= MAX_RETRIES + 1 - retries
    decreases |script|
  {
    match Next(script)
    case Replied(reply) => Attempts(Success(reply), Rest(script), [d], [])
    case Failed(code, message) =>
      if retries < MAX_RETRIES && Retryable(code) then
        var a := Retry(d, Rest(script), retries + 1);
        Attempts(a.result, a.rest, [d] + a.sent, [retries + 1] + a.waits)
      else
        Attempts(Failure(TransportFailure(code, message)), Rest(script), [d], [])
  }

  /** The retry numbers after `from` retries: `from + 1`, `from + 2`, …, `count` of them. */
  function RetryNumbers(from: nat, count: nat): (r: seq<nat>)
    ensures |r| == count && forall i :: 0 <= i < count ==> r[i] == from + i + 1
    decreases count
  {
    if count == 0 then [] else [from + 1] + RetryNumbers(from + 1, count - 1)
  }

  /** Up to five transient failures before a reply are absorbed: the round ends with that
      reply, having sent the request once per outcome and waited before each retry. */
  lemma {:induction false} RetryAbsorbs(d: Descriptor, fails: seq<Outcome>, reply: Reply, tail: seq<Outcome>, retries: nat)
    requires forall i :: 0 <= i < |fails| ==> Transient(fails[i])
    requires retries + |fails| <= MAX_RETRIES
    ensures var a := Retry(d, fails + [Replied(reply)] + tail, retries);
      && a.result == Success(reply)
      && a.rest == tail
      && a.sent == Seqs.Repeat(d, |fails| + 1)
      && a.waits == RetryNumbers(retries, |fails|)
    decreases |fails|
  {
    if fails != [] {
      RetryAbsorbs(d, fails[1..], reply, tail, retries + 1);
      RetryAbsorbsStep(d, fails, reply, tail, retries);
    } else {
      assert fails + [Replied(reply)] + tail == [Replied(reply)] + tail;
    }
  }

  /** One transient failure in front of a round that is absorbed: one more request and
      one more wait, numbered `retries + 1`, in front of those of the round. */
  lemma {:induction false} RetryAbsorbsStep(d: Descriptor, fails: seq<Outcome>, reply: Reply, tail: seq<Outcome>, retries: nat)
    requires fails != [] && Transient(fails[0]) && retries < MAX_RETRIES
    requires var a := Retry(d, fails[1..] + [Replied(reply)] + tail, retries + 1);
      && a.result == Success(reply)
      && a.rest == tail
      && a.sent == Seqs.Repeat(d, |fails| - 1 + 1)
      && a.waits == RetryNumbers(retries + 1, |fails| - 1)
    ensures var a := Retry(d, fails + [Replied(reply)] + tail, retries);
      && a.result == Success(reply)
      && a.rest == tail
      && a.sent == Seqs.Repeat(d, |fails| + 1)
      && a.waits == RetryNumbers(retries, |fails|)
  {
    var script := fails + [Replied(reply)] + tail;
    assert Next(script) == fails[0];
    assert Rest(script) == fails[1..] + [Replied(reply)] + tail;
  }

  /** Transient failures that outlast the budget end the round with the last failure's
      code and message, after one attempt per failure; nothing after them is consumed. */
  lemma {:induction false} RetryExhausts(d: Descriptor, fails: seq<Outcome>, tail: seq<Outcome>, retries: nat)
    requires |fails| > 0 && forall i :: 0 <= i < |fails| ==> Transient(fails[i])
    requires retries + |fails| == MAX_RETRIES + 1
    ensures var a := Retry(d, fails + tail, retries);
      var last := fails[|fails| - 1];
      && last.Failed?
      && a.result == Failure(TransportFailure(last.code, last.message))
      && a.rest == tail
      && a.sent == Seqs.Repeat(d, |fails|)
      && a.waits == RetryNumbers(retries, |fails| - 1)
    decreases |fails|
  {
    var script := fails + tail;
    assert Next(script) == fails[0];
    assert Rest(script) == fails[1..] + tail;
    if |fails| > 1 {
      RetryExhausts(d, fails[1..], tail, retries + 1);
    }
  }

  /** A failure with any other code ends the round at once, with that failure's own code
      and message, after a single attempt and no wait. */
  lemma {:induction false} FailsAtOnce(d: Descriptor, code: string, message: string, tail: seq<Outcome>, retries: nat)
    requires !Retryable(code)
    ensures Retry(d, [Failed(code, message)] + tail, retries)
              == Attempts(Failure(TransportFailure(code, message)), tail, [d], [])
  {
    assert Rest([Failed(code, message)] + tail) == tail;
  }
}
