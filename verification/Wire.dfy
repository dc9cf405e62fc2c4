/** How what one host sends becomes an event at another. */
module Wire {
  import opened Types
  import opened QuorumStep

  datatype Envelope = Envelope(from: Addr, to: Addr, event: Event)

  /** A request to a peer, encoded by the client task and decoded by the peer's server. Requests
      that do not concern the quorum handler give None. */
  function ToEvent(req: RpcRequest): Option<Event> {
    match req
    case LeaderReq(addr, ts) => Some(Event.LeaderReq(addr, ts))
    case LeaderAck(addr, ts) => Some(Event.LeaderAck(addr, ts))
    case LeaderSwitch(voteHost, ts) => Some(Event.LeaderSwitch(voteHost, ts))
    case LeaderReqAck(addr, ts) => Some(Event.LeaderReqAck(addr, ts))
    case LeaderSwitchAck(addr) => Some(Event.LeaderSwitchAck(addr))
    case LeaderSwitchDead(voteHost, ts) => Some(Event.LeaderSwitchDead(voteHost, ts))
    case LeaderSwitchPriority(voteHost, ts) => Some(Event.LeaderSwitchPriority(voteHost, ts))
    case _ => None
  }

  /** The first message of a server to a client that connects; without a leader the client
      ignores it. */
  function Greeting(host: Addr, report: QuorumReport): Option<Event> {
    if report.leader.None? then None
    else
      var hasQuorum := report.health != Bad;
      match report.leader.value
      case Local(ts) => Some(LeaderInfo(host, ts, hasQuorum))
      case Remote(lead) => Some(LeaderInfo(lead.address, lead.electionTs, hasQuorum))
  }

  /** One copy for every host of the cluster but the sender. */
  function Fan(order: seq<Addr>, who: Addr, e: Event): seq<Envelope> {
    if order == [] then []
    else (if order[0] == who then [] else [Envelope(who, order[0], e)]) + Fan(order[1..], who, e)
  }

  /** The envelopes of one output of `who` on handling `e`, which came from `from`. A request that
      was accepted is acked on the stream it came from. */
  function Route(order: seq<Addr>, who: Addr, from: Addr, e: Event, o: Output): seq<Envelope> {
    match o
    case Broadcast(req) => if ToEvent(req).Some? then Fan(order, who, ToEvent(req).value) else []
    case Direct(tx, req) => if ToEvent(req).Some? then [Envelope(who, tx.host, ToEvent(req).value)] else []
    case ToSelf(ev) => [Envelope(who, who, ev)]
    case Answer(accepted) =>
      if accepted && e.LeaderReq? then [Envelope(who, from, Event.LeaderReqAck(e.addr, e.ts))] else []
    case Report(report) =>
      if e.GetReport? && Greeting(who, report).Some? then [Envelope(who, e.asker, Greeting(who, report).value)] else []
    case _ => []
  }

  function RouteAll(order: seq<Addr>, who: Addr, from: Addr, e: Event, out: seq<Output>): seq<Envelope> {
    if out == [] then [] else Route(order, who, from, e, out[0]) + RouteAll(order, who, from, e, out[1..])
  }

  lemma {:induction false} FanMembers(order: seq<Addr>, who: Addr, e: Event, v: Envelope)
    ensures v in Fan(order, who, e) <==> v.from == who && v.to in order && v.to != who && v.event == e
  {
    if order == [] {
    } else {
      FanMembers(order[1..], who, e, v);
      assert order == [order[0]] + order[1..];
    }
  }

  /** Every envelope stems from an output. */
  lemma {:induction false} RouteAllOrigin(order: seq<Addr>, who: Addr, from: Addr, e: Event,
                                          out: seq<Output>, v: Envelope)
      returns (o: Output)
    requires v in RouteAll(order, who, from, e, out)
    ensures o in out && v in Route(order, who, from, e, o)
  {
    if v in Route(order, who, from, e, out[0]) {
      o := out[0];
    } else {
      o := RouteAllOrigin(order, who, from, e, out[1..], v);
    }
  }
}
