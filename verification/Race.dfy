/** Simultaneous candidacies in a fully connected cluster: every host stands with its own timestamp, and the
    messages of the conflict resolution are delivered in an arbitrary order, even of one connection. What
    holds here holds a fortiori over the queues of Queues.dfy. No timeouts, no new elections, no lost
    connections. */
module Race {
  import opened Types
  import opened QuorumStep
  import opened Wire

  /** The hosts and the timestamps with which they stand. */
  datatype Contest = Contest(order: seq<Addr>, ts: map<Addr, int>)

  /** All handlers and every envelope that is still to be delivered. */
  datatype World = World(nodes: map<Addr, Node>, flight: seq<Envelope>)

  ghost predicate ValidContest(c: Contest) {
    && |c.order| >= 2
    && (forall i, j :: 0 <= i < j < |c.order| ==> c.order[i] != c.order[j])
    && (forall a :: a in c.ts <==> a in c.order)
  }

  function Without<T>(s: seq<T>, i: nat): seq<T>
    requires i < |s|
  {
    s[..i] + s[i + 1..]
  }

  /** Delivers the i-th envelope in flight. */
  function Deliver(c: Contest, w: World, i: nat): World
    requires i < |w.flight| && w.flight[i].to in w.nodes
  {
    var v := w.flight[i];
    var r := Step(w.nodes[v.to], v.event);
    World(w.nodes[v.to := r.node], Without(w.flight, i) + RouteAll(c.order, v.to, v.from, v.event, r.out))
  }

  // ----- what holds throughout a race

  ghost predicate Connected(c: Contest, a: Addr, n: Node) {
    && n.status == Running && n.cfg.whoami == a && a !in n.hosts
    && n.cfg.Quorum() == |c.order| / 2
    && forall b :: b in c.order && b != a ==> b in n.hosts && n.hosts[b].tx == Some(Channel(b))
  }

  /** The host stands or leads itself, or follows another one that stood. */
  ghost predicate Contestant(c: Contest, a: Addr, n: Node)
    requires a in c.ts
  {
    && Connected(c, a, n)
    && n.leader.Some?
    && match n.leader.value
       case Local(t) => t == c.ts[a] && (n.state == LeadershipRequested(t) || n.state == QuorumState.Leader)
       case Remote(s) =>
         s.address in c.ts && s.address != a && s.electionTs == c.ts[s.address] && n.state == Follower
  }

  ghost predicate Names(c: Contest, x: Addr, t: int) {
    x in c.ts && t == c.ts[x]
  }

  /** One of the four messages of the conflict resolution, about a host that stood. */
  ghost predicate Proper(c: Contest, v: Envelope) {
    && v.to in c.ts
    && match v.event
       case LeaderReq(x, t) => Names(c, x, t) && x != v.to
       case LeaderReqAck(x, t) => Names(c, x, t)
       case LeaderSwitchPriority(x, t) => Names(c, x, t)
       case LeaderAck(x, t) => Names(c, x, t) && x != v.to
       case _ => false
  }

  ghost predicate RaceInv(c: Contest, w: World) {
    && ValidContest(c)
    && w.nodes.Keys == c.ts.Keys
    && (forall a :: a in c.ts ==> Contestant(c, a, w.nodes[a]))
    && (forall i :: 0 <= i < |w.flight| ==> Proper(c, w.flight[i]))
  }

  // ----- what one delivery does

  /** The envelopes of `check_leadership_conflict` at host `a`. */
  function Alarm(c: Contest, a: Addr, n: Node, x: Addr, t: int): seq<Envelope>
    requires n.leader.Some?
  {
    if t < LeaderTs(n) then
      [Envelope(a, a, Event.LeaderSwitchPriority(x, t))] + Fan(c.order, a, Event.LeaderSwitchPriority(x, t))
    else Fan(c.order, a, Event.LeaderSwitchPriority(LeaderAddr(n), LeaderTs(n)))
  }

  /** A contestant counts this ack. */
  predicate Counted(a: Addr, n: Node, e: Event) {
    e.LeaderReqAck? && n.leader.Some? && n.leader.value.Local? && e.addr == a
  }

  /** A contestant gives way to the candidate that this message names. */
  predicate Yields(n: Node, e: Event) {
    n.leader.Some? && e.LeaderSwitchPriority? && e.ts < LeaderTs(n)
  }

  lemma {:induction false} RouteConcat(order: seq<Addr>, who: Addr, from: Addr, e: Event,
                                       a: seq<Output>, b: seq<Output>)
    ensures RouteAll(order, who, from, e, a + b) == RouteAll(order, who, from, e, a) + RouteAll(order, who, from, e, b)
  {
    if a == [] {
      assert a + b == b;
    } else {
      assert (a + b)[1..] == a[1..] + b;
      RouteConcat(order, who, from, e, a[1..], b);
    }
  }

  lemma RouteOne(order: seq<Addr>, who: Addr, from: Addr, e: Event, o: Output)
    ensures RouteAll(order, who, from, e, [o]) == Route(order, who, from, e, o)
  {
    assert [o][1..] == [];
  }

  lemma RouteConflict(c: Contest, a: Addr, n: Node, from: Addr, e: Event, x: Addr, t: int)
    requires n.leader.Some? && n.cfg.whoami == a
    ensures RouteAll(c.order, a, from, e, ConflictOutput(n, x, t)) == Alarm(c, a, n, x, t)
  {
    hide Fan;
    var out := ConflictOutput(n, x, t);
    if t < LeaderTs(n) {
      assert out == [out[0]] + [out[1]];
      RouteConcat(c.order, a, from, e, [out[0]], [out[1]]);
      RouteOne(c.order, a, from, e, out[0]);
      RouteOne(c.order, a, from, e, out[1]);
    } else {
      RouteOne(c.order, a, from, e, out[0]);
    }
  }

  /** A request changes nothing but raises the alarm. */
  lemma OnReq(c: Contest, a: Addr, n: Node, from: Addr, x: Addr, t: int)
    requires a in c.ts && Contestant(c, a, n)
    ensures var r := Step(n, Event.LeaderReq(x, t));
            && r.node == Publish(n)
            && RouteAll(c.order, a, from, Event.LeaderReq(x, t), r.out) == Alarm(c, a, n, x, t)
  {
    hide RouteAll, Alarm, ConflictOutput;
    var e := Event.LeaderReq(x, t);
    RouteConflict(c, a, n, from, e, x, t);
    RouteConcat(c.order, a, from, e, ConflictOutput(n, x, t), [Answer(false)]);
    RouteOne(c.order, a, from, e, Answer(false));
  }

  /** An ack raises the alarm; if it is counted and completes a quorum, the host announces itself. */
  lemma OnReqAck(c: Contest, a: Addr, n: Node, from: Addr, x: Addr, t: int)
    requires a in c.ts && Contestant(c, a, n)
    ensures var e := Event.LeaderReqAck(x, t);
            var r := Step(n, e);
            && r.node.leader == n.leader
            && r.node.acks == n.acks + (if Counted(a, n, e) then 1 else 0)
            && r.node.state == (if Counted(a, n, e) && n.acks + 1 >= |c.order| / 2 then QuorumState.Leader else n.state)
            && Connected(c, a, r.node)
            && RouteAll(c.order, a, from, e, r.out) ==
               Alarm(c, a, n, x, t)
               + if Counted(a, n, e) && n.acks + 1 >= |c.order| / 2
                 then Fan(c.order, a, Event.LeaderAck(a, c.ts[a])) else []
  {
    hide RouteAll, Alarm, ConflictOutput, Fan;
    var e := Event.LeaderReqAck(x, t);
    RouteConflict(c, a, n, from, e, x, t);
    if Counted(a, n, e) && n.acks + 1 >= |c.order| / 2 {
      var o := Broadcast(RpcRequest.LeaderAck(a, c.ts[a]));
      assert Step(n, e).out == ConflictOutput(n, x, t) + [o];
      RouteConcat(c.order, a, from, e, ConflictOutput(n, x, t), [o]);
      RouteOne(c.order, a, from, e, o);
    }
  }

  /** A priority switch is taken exactly if it names an earlier candidate, and then acked to all. */
  lemma OnPriority(c: Contest, a: Addr, n: Node, from: Addr, x: Addr, t: int)
    requires a in c.ts && Contestant(c, a, n) && Names(c, x, t) && ValidContest(c)
    ensures var e := Event.LeaderSwitchPriority(x, t);
            var r := Step(n, e);
            && Contestant(c, a, r.node) && r.node.acks == n.acks
            && (Yields(n, e) ==>
                LeaderAddr(r.node) == x && LeaderTs(r.node) == t && (x == a ==> r.node.state == QuorumState.Leader))
            && (!Yields(n, e) ==> r.node.leader == n.leader && r.node.state == n.state)
            && RouteAll(c.order, a, from, e, r.out) ==
               if Yields(n, e) && x != a then Fan(c.order, a, Event.LeaderReqAck(x, t)) else []
  {
    hide RouteAll, Fan;
    var e := Event.LeaderSwitchPriority(x, t);
    assert DoSwitch(n, x, t) == Some(Yields(n, e));
    RouteNothing(c.order, a, from, e);
    if Yields(n, e) && x != a {
      var o := Broadcast(RpcRequest.LeaderReqAck(x, t));
      assert LeaderTx(n.hosts, x) == Some(Channel(x));
      assert Step(n, e).out == [o];
      RouteOne(c.order, a, from, e, o);
    }
  }

  lemma RouteNothing(order: seq<Addr>, who: Addr, from: Addr, e: Event)
    ensures RouteAll(order, who, from, e, []) == []
  { }

  /** An announcement replaces the registered leader, whoever that was. */
  lemma OnAck(c: Contest, a: Addr, n: Node, from: Addr, x: Addr, t: int)
    requires a in c.ts && Contestant(c, a, n) && Names(c, x, t) && x != a && ValidContest(c)
    ensures var e := Event.LeaderAck(x, t);
            var r := Step(n, e);
            && Contestant(c, a, r.node) && r.node.acks == 0 && LeaderAddr(r.node) == x && LeaderTs(r.node) == t
            && RouteAll(c.order, a, from, e, r.out) == []
  {
    assert LeaderTx(n.hosts, x) == Some(Channel(x));
  }

  // ----- one delivery keeps the invariant

  lemma AlarmProper(c: Contest, a: Addr, n: Node, x: Addr, t: int, v: Envelope)
    requires ValidContest(c) && a in c.ts && Contestant(c, a, n) && Names(c, x, t)
    requires v in Alarm(c, a, n, x, t)
    ensures Proper(c, v)
  {
    FanMembers(c.order, a, Event.LeaderSwitchPriority(x, t), v);
    FanMembers(c.order, a, Event.LeaderSwitchPriority(LeaderAddr(n), LeaderTs(n)), v);
  }

  /** The outcome at the host that takes the delivery. */
  lemma TakenOk(c: Contest, a: Addr, n: Node, v: Envelope)
    requires ValidContest(c) && a in c.ts && Contestant(c, a, n) && Proper(c, v) && v.to == a
    ensures Contestant(c, a, Step(n, v.event).node)
    ensures forall u :: u in RouteAll(c.order, a, v.from, v.event, Step(n, v.event).out) ==> Proper(c, u)
  {
    hide Step, RouteAll, Fan, Alarm;
    var e := v.event;
    match e {
      case LeaderReq(x, t) => OnReq(c, a, n, v.from, x, t);
      case LeaderReqAck(x, t) => OnReqAck(c, a, n, v.from, x, t);
      case LeaderSwitchPriority(x, t) => OnPriority(c, a, n, v.from, x, t);
      case LeaderAck(x, t) => OnAck(c, a, n, v.from, x, t);
    }
    forall u | u in RouteAll(c.order, a, v.from, e, Step(n, e).out) ensures Proper(c, u) {
      if !e.LeaderAck? && !e.LeaderSwitchPriority? && u in Alarm(c, a, n, e.addr, e.ts) {
        AlarmProper(c, a, n, e.addr, e.ts, u);
      } else {
        FanMembers(c.order, a, Event.LeaderAck(a, c.ts[a]), u);
        if e.LeaderSwitchPriority? { FanMembers(c.order, a, Event.LeaderReqAck(e.voteHost, e.ts), u); }
      }
    }
  }

  lemma DeliverKeepsInv(c: Contest, w: World, i: nat)
    requires RaceInv(c, w) && i < |w.flight|
    ensures RaceInv(c, Deliver(c, w, i))
  {
    hide Step, RouteAll, Contestant, Proper;
    var v := w.flight[i];
    ProperTo(c, v);
    TakenOk(c, v.to, w.nodes[v.to], v);
    var w' := Deliver(c, w, i);
    forall j | 0 <= j < |w'.flight| ensures Proper(c, w'.flight[j]) {
      var kept := Without(w.flight, i);
      if j < |kept| {
        assert w'.flight[j] == w.flight[if j < i then j else j + 1];
      } else {
        assert w'.flight[j] in RouteAll(c.order, v.to, v.from, v.event, Step(w.nodes[v.to], v.event).out);
      }
    }
  }

  lemma ProperTo(c: Contest, v: Envelope)
    requires Proper(c, v)
    ensures v.to in c.ts
  { }

  // ----- schedules

  /** A schedule picks, delivery by delivery, the envelope that comes next. */
  ghost predicate ValidSchedule(c: Contest, w: World, picks: seq<nat>)
    decreases |picks|
  {
    picks == [] ||
    (picks[0] < |w.flight| && w.flight[picks[0]].to in w.nodes && ValidSchedule(c, Deliver(c, w, picks[0]), picks[1..]))
  }

  function Play(c: Contest, w: World, picks: seq<nat>): World
    requires ValidSchedule(c, w, picks)
    decreases |picks|
  {
    if picks == [] then w else Play(c, Deliver(c, w, picks[0]), picks[1..])
  }

  lemma {:induction false} PlayKeepsInv(c: Contest, w: World, picks: seq<nat>)
    requires RaceInv(c, w) && ValidSchedule(c, w, picks)
    ensures RaceInv(c, Play(c, w, picks))
    decreases |picks|
  {
    hide Step, RouteAll, RaceInv;
    if picks == [] {
    } else {
      DeliverKeepsInv(c, w, picks[0]);
      PlayKeepsInv(c, Deliver(c, w, picks[0]), picks[1..]);
    }
  }

  /** The start: every host stands, has counted nothing yet, and its request is on the way to every
      other host, possibly more than once. */
  ghost predicate AllStand(c: Contest, w: World) {
    && ValidContest(c)
    && w.nodes.Keys == c.ts.Keys
    && (forall a :: a in c.ts ==>
         && Connected(c, a, w.nodes[a]) && w.nodes[a].acks == 0
         && w.nodes[a].leader == Some(Local(c.ts[a])) && w.nodes[a].state == LeadershipRequested(c.ts[a]))
    && (forall i :: 0 <= i < |w.flight| ==> w.flight[i].event.LeaderReq? && Proper(c, w.flight[i]))
    && (forall a, b :: a in c.ts && b in c.ts && a != b ==>
         Envelope(a, b, Event.LeaderReq(a, c.ts[a])) in w.flight)
  }
}
