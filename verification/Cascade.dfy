/** Conflict cascades die out: a natural number falls with every delivery. */
module Cascade {
  import opened Types
  import opened QuorumStep
  import opened Wire
  import opened Race

  // ----- the weights

  /** How many hosts of `order` stand with an earlier timestamp. */
  function Rank(order: seq<Addr>, ts: map<Addr, int>, t: int): nat {
    if order == [] then 0
    else (if order[0] in ts && ts[order[0]] < t then 1 else 0) + Rank(order[1..], ts, t)
  }

  /** An ack in a cluster of `n`, given the weight of following the candidate it names: the alarm it
      raises, the announcement it may complete, and itself. */
  function AckWeight(n: nat, following: nat): nat {
    n + 1 + n * (following + 1) + 1
  }

  /** Following the candidate of rank `r`: the weight of the one before and of acking it to all. */
  function FollowWeight(n: nat, r: nat): nat {
    if r == 0 then 0
    else FollowWeight(n, r - 1) + n * AckWeight(n, FollowWeight(n, r - 1)) + 1
  }

  function TsWeight(c: Contest, t: int): nat {
    FollowWeight(|c.order|, Rank(c.order, c.ts, t))
  }

  function Weight(c: Contest, e: Event): nat {
    match e
    case LeaderReq(_, _) => |c.order| + 2
    case LeaderReqAck(_, t) => AckWeight(|c.order|, TsWeight(c, t))
    case LeaderSwitchPriority(_, _) => 1
    case LeaderAck(_, t) => TsWeight(c, t) + 1
    case _ => 0
  }

  function FlightWeight(c: Contest, flight: seq<Envelope>): nat {
    if flight == [] then 0 else Weight(c, flight[0].event) + FlightWeight(c, flight[1..])
  }

  function NodeWeight(c: Contest, n: Node): nat {
    if n.leader.Some? then TsWeight(c, LeaderTs(n)) else 0
  }

  function NodesWeight(c: Contest, order: seq<Addr>, nodes: map<Addr, Node>): nat {
    if order == [] then 0
    else (if order[0] in nodes then NodeWeight(c, nodes[order[0]]) else 0) + NodesWeight(c, order[1..], nodes)
  }

  function Potential(c: Contest, w: World): nat {
    FlightWeight(c, w.flight) + NodesWeight(c, c.order, w.nodes)
  }

  // ----- earlier candidates weigh less

  lemma {:induction false} RankGrows(order: seq<Addr>, ts: map<Addr, int>, t: int, u: int)
    requires t <= u
    ensures Rank(order, ts, t) <= Rank(order, ts, u)
    ensures (exists a :: a in order && a in ts && ts[a] == t) && t < u ==> Rank(order, ts, t) < Rank(order, ts, u)
  {
    if order == [] {
    } else {
      RankGrows(order[1..], ts, t, u);
      assert order == [order[0]] + order[1..];
    }
  }

  lemma {:induction false} FollowWeightGrows(n: nat, r: nat, q: nat)
    requires r < q
    ensures FollowWeight(n, q) >= FollowWeight(n, r) + n * AckWeight(n, FollowWeight(n, r)) + 1
    decreases q
  {
    if r == q - 1 {
    } else {
      FollowWeightGrows(n, r, q - 1);
      assert n * AckWeight(n, FollowWeight(n, q - 1)) >= 0;
    }
  }

  lemma EarlierWeighsLess(c: Contest, x: Addr, t: int, u: int)
    requires ValidContest(c) && Names(c, x, t) && t < u
    ensures TsWeight(c, u) >= TsWeight(c, t) + |c.order| * AckWeight(|c.order|, TsWeight(c, t)) + 1
  {
    RankGrows(c.order, c.ts, t, u);
    FollowWeightGrows(|c.order|, Rank(c.order, c.ts, t), Rank(c.order, c.ts, u));
  }

  // ----- sums

  lemma {:induction false} FlightConcat(c: Contest, a: seq<Envelope>, b: seq<Envelope>)
    ensures FlightWeight(c, a + b) == FlightWeight(c, a) + FlightWeight(c, b)
  {
    if a == [] {
      assert a + b == b;
    } else {
      assert (a + b)[1..] == a[1..] + b;
      FlightConcat(c, a[1..], b);
    }
  }

  lemma FlightWithout(c: Contest, flight: seq<Envelope>, i: nat)
    requires i < |flight|
    ensures FlightWeight(c, flight) == FlightWeight(c, Without(flight, i)) + Weight(c, flight[i].event)
  {
    assert flight == flight[..i] + ([flight[i]] + flight[i + 1..]);
    FlightConcat(c, flight[..i], [flight[i]] + flight[i + 1..]);
    FlightConcat(c, flight[..i], flight[i + 1..]);
  }

  lemma {:induction false} FanWeight(c: Contest, order: seq<Addr>, who: Addr, e: Event)
    ensures FlightWeight(c, Fan(order, who, e)) <= |order| * Weight(c, e)
  {
    hide Weight, FlightWeight;
    if order == [] {
      EmptyWeight(c);
    } else {
      FanWeight(c, order[1..], who, e);
      var head := if order[0] == who then [] else [Envelope(who, order[0], e)];
      FlightConcat(c, head, Fan(order[1..], who, e));
      OneMore(|order[1..]|, Weight(c, e));
      EmptyWeight(c);
      assert FlightWeight(c, head) <= Weight(c, e) by { OneWeight(c, Envelope(who, order[0], e)); }
    }
  }

  lemma OneMore(k: nat, w: nat)
    ensures (k + 1) * w == k * w + w
  { }

  lemma OneWeight(c: Contest, v: Envelope)
    ensures FlightWeight(c, [v]) == Weight(c, v.event)
  {
    assert [v][1..] == [];
  }

  lemma EmptyWeight(c: Contest)
    ensures FlightWeight(c, []) == 0
  { }

  lemma AlarmWeight(c: Contest, a: Addr, n: Node, x: Addr, t: int)
    requires n.leader.Some?
    ensures FlightWeight(c, Alarm(c, a, n, x, t)) <= |c.order| + 1
  {
    hide Fan;
    FanWeight(c, c.order, a, Event.LeaderSwitchPriority(x, t));
    FanWeight(c, c.order, a, Event.LeaderSwitchPriority(LeaderAddr(n), LeaderTs(n)));
    var switch := Event.LeaderSwitchPriority(x, t);
    FlightConcat(c, [Envelope(a, a, switch)], Fan(c.order, a, switch));
  }

  lemma {:induction false} NodesUpdate(c: Contest, order: seq<Addr>, nodes: map<Addr, Node>, a: Addr, n: Node)
    requires forall i, j :: 0 <= i < j < |order| ==> order[i] != order[j]
    requires a in nodes
    ensures NodesWeight(c, order, nodes[a := n])
         == NodesWeight(c, order, nodes) + if a in order then NodeWeight(c, n) - NodeWeight(c, nodes[a]) else 0
  {
    hide NodeWeight;
    if order == [] {
    } else {
      NodesUpdate(c, order[1..], nodes, a, n);
      assert order == [order[0]] + order[1..];
    }
  }

  // ----- one delivery

  /** At the host that takes the delivery, the envelope and the old leader outweigh the new leader
      and everything sent. */
  lemma TakenIsLighter(c: Contest, a: Addr, n: Node, v: Envelope)
    requires ValidContest(c) && a in c.ts && Contestant(c, a, n) && Proper(c, v) && v.to == a
    ensures var r := Step(n, v.event);
            FlightWeight(c, RouteAll(c.order, a, v.from, v.event, r.out)) + NodeWeight(c, r.node)
            < Weight(c, v.event) + NodeWeight(c, n)
  {
    hide Step, RouteAll, Fan, Alarm, FlightWeight, TsWeight, AckWeight;
    var e := v.event;
    match e {
      case LeaderReq(x, t) =>
        OnReq(c, a, n, v.from, x, t);
        AlarmWeight(c, a, n, x, t);
      case LeaderReqAck(x, t) => ReqAckIsLighter(c, a, n, v);
      case LeaderSwitchPriority(x, t) =>
        OnPriority(c, a, n, v.from, x, t);
        FanWeight(c, c.order, a, Event.LeaderReqAck(x, t));
        EmptyWeight(c);
        if Yields(n, e) { EarlierWeighsLess(c, x, t, LeaderTs(n)); }
      case LeaderAck(x, t) =>
        OnAck(c, a, n, v.from, x, t);
        EmptyWeight(c);
    }
  }

  /** An ack outweighs its alarm and the announcement it may complete. */
  lemma AckOutweighs(c: Contest, a: Addr, x: Addr, t: int)
    ensures FlightWeight(c, Fan(c.order, a, Event.LeaderAck(a, t))) + |c.order| + 1
            < Weight(c, Event.LeaderReqAck(x, t))
  {
    hide TsWeight, Fan, FlightWeight;
    FanWeight(c, c.order, a, Event.LeaderAck(a, t));
  }

  lemma ReqAckIsLighter(c: Contest, a: Addr, n: Node, v: Envelope)
    requires ValidContest(c) && a in c.ts && Contestant(c, a, n) && Proper(c, v) && v.to == a && v.event.LeaderReqAck?
    ensures var r := Step(n, v.event);
            FlightWeight(c, RouteAll(c.order, a, v.from, v.event, r.out)) + NodeWeight(c, r.node)
            < Weight(c, v.event) + NodeWeight(c, n)
  {
    hide Step, RouteAll, Fan, Alarm, FlightWeight, TsWeight, Weight, Connected;
    var x, t := v.event.addr, v.event.ts;
    OnReqAck(c, a, n, v.from, x, t);
    AlarmWeight(c, a, n, x, t);
    AckOutweighs(c, a, x, t);
    var alarm := Alarm(c, a, n, x, t);
    if Counted(a, n, v.event) && n.acks + 1 >= |c.order| / 2 {
      FlightConcat(c, alarm, Fan(c.order, a, Event.LeaderAck(a, t)));
    } else {
      assert alarm + [] == alarm;
    }
  }

  lemma DeliverIsLighter(c: Contest, w: World, i: nat)
    requires RaceInv(c, w) && i < |w.flight|
    ensures Potential(c, Deliver(c, w, i)) < Potential(c, w)
  {
    hide Step, RouteAll, Contestant, Proper, FlightWeight, NodeWeight, NodesWeight;
    var v := w.flight[i];
    ProperTo(c, v);
    TakenIsLighter(c, v.to, w.nodes[v.to], v);
    var r := Step(w.nodes[v.to], v.event);
    FlightWithout(c, w.flight, i);
    FlightConcat(c, Without(w.flight, i), RouteAll(c.order, v.to, v.from, v.event, r.out));
    NodesUpdate(c, c.order, w.nodes, v.to, r.node);
  }

  // ----- whole schedules

  /** Whatever order the network chooses, a race is over after at most as many deliveries as the
      potential of its start. Timestamps may even coincide. */
  lemma {:induction false} CascadeDiesOut(c: Contest, w: World, picks: seq<nat>)
    requires RaceInv(c, w) && ValidSchedule(c, w, picks)
    ensures |picks| + Potential(c, Play(c, w, picks)) <= Potential(c, w)
    decreases |picks|
  {
    hide Step, RouteAll, RaceInv, Potential;
    if picks == [] {
    } else {
      DeliverKeepsInv(c, w, picks[0]);
      DeliverIsLighter(c, w, picks[0]);
      CascadeDiesOut(c, Deliver(c, w, picks[0]), picks[1..]);
    }
  }

  lemma StartIsRace(c: Contest, w: World)
    requires AllStand(c, w)
    ensures RaceInv(c, w)
  { }

  /** From simultaneous candidacies of all hosts no schedule is longer than the starting potential. */
  lemma EveryRaceEnds(c: Contest, w: World, picks: seq<nat>)
    requires AllStand(c, w) && ValidSchedule(c, w, picks)
    ensures |picks| <= Potential(c, w)
  {
    StartIsRace(c, w);
    CascadeDiesOut(c, w, picks);
  }
}
