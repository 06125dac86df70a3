/** The transport, replaced by a script: each attempt takes the next scripted outcome and
    is logged, in order, with the request it carried. */
module Transport {
  import opened Requests
  import opened Retrying

  class ScriptedTransport {
    var script: seq<Outcome>
    var sent: seq<Descriptor>

    constructor (script: seq<Outcome>)
      ensures this.script == script && sent == []
    {
      this.script := script;
      sent := [];
    }

    /** One attempt. */
    method Send(d: Descriptor) returns (o: Outcome)
      modifies this
      ensures o == Next(old(script)) && script == Rest(old(script))
      ensures sent == old(sent) + [d]
    {
      o := Next(script);
      script := Rest(script);
      sent := sent + [d];
    }
  }
}
