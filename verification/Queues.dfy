/** The race over the queues that there really are. What one host sends another passes one client queue, one
    stream and one server loop, and then waits in the receiver's own queue, where a host also puts what it
    sends itself. A server reads on only when a request has been answered. In a race every host has a
    leader, so no request is accepted and no ack travels back on the answering half of a stream. */
module Queues {
  import opened Types
  import opened QuorumStep
  import opened Wire
  import opened Race
  import opened Cascade
  import opened Earliest

  /** All handlers, what has arrived in their own queues, and what is still on a connection; both in the
      order in which it got there. */
  datatype Net = Net(nodes: map<Addr, Node>, inbox: seq<Envelope>, wire: seq<Envelope>)

  datatype Move = Arrive(i: nat) | Handle(i: nat)

  predicate SameLink(u: Envelope, v: Envelope) {
    u.from == v.from && u.to == v.to
  }

  /** The first one on its connection arrives, unless a request from there still waits for its answer. A
      handler takes what is first in its queue. */
  ghost predicate CanGo(x: Net, mv: Move) {
    match mv
    case Arrive(i) =>
      && i < |x.wire|
      && (forall k :: 0 <= k < i ==> !SameLink(x.wire[k], x.wire[i]))
      && (forall v :: v in x.inbox && SameLink(v, x.wire[i]) ==> !v.event.LeaderReq?)
    case Handle(i) =>
      && i < |x.inbox| && x.inbox[i].to in x.nodes
      && (forall k :: 0 <= k < i ==> x.inbox[k].to != x.inbox[i].to)
  }

  function To(s: seq<Envelope>, a: Addr): seq<Envelope> {
    if s == [] then [] else (if s[0].to == a then [s[0]] else []) + To(s[1..], a)
  }

  function NotTo(s: seq<Envelope>, a: Addr): seq<Envelope> {
    if s == [] then [] else (if s[0].to == a then [] else [s[0]]) + NotTo(s[1..], a)
  }

  function Sent(c: Contest, n: Node, v: Envelope): seq<Envelope> {
    RouteAll(c.order, v.to, v.from, v.event, Step(n, v.event).out)
  }

  function Go(c: Contest, x: Net, mv: Move): Net
    requires CanGo(x, mv)
  {
    match mv
    case Arrive(i) => Net(x.nodes, x.inbox + [x.wire[i]], Without(x.wire, i))
    case Handle(i) =>
      var v := x.inbox[i];
      var n := x.nodes[v.to];
      Net(x.nodes[v.to := Step(n, v.event).node],
          Without(x.inbox, i) + To(Sent(c, n, v), v.to), x.wire + NotTo(Sent(c, n, v), v.to))
  }

  ghost predicate CanRun(c: Contest, x: Net, ms: seq<Move>)
    decreases |ms|
  {
    ms == [] || (CanGo(x, ms[0]) && CanRun(c, Go(c, x, ms[0]), ms[1..]))
  }

  function Run(c: Contest, x: Net, ms: seq<Move>): Net
    requires CanRun(c, x, ms)
    decreases |ms|
  {
    if ms == [] then x else Run(c, Go(c, x, ms[0]), ms[1..])
  }

  lemma {:induction false} RunOn(c: Contest, x: Net, p: seq<Move>, q: seq<Move>)
    requires CanRun(c, x, p) && CanRun(c, Run(c, x, p), q)
    ensures CanRun(c, x, p + q) && Run(c, x, p + q) == Run(c, Run(c, x, p), q)
    decreases |p|
  {
    hide Go, CanGo;
    if p == [] {
      assert p + q == q;
    } else {
      assert (p + q)[0] == p[0] && (p + q)[1..] == p[1..] + q;
      RunOn(c, Go(c, x, p[0]), p[1..], q);
    }
  }

  lemma RunOne(c: Contest, x: Net, mv: Move)
    requires CanGo(x, mv)
    ensures CanRun(c, x, [mv]) && Run(c, x, [mv]) == Go(c, x, mv)
  {
    hide Go, CanGo;
    assert [mv][1..] == [];
  }

  // ----- forgetting the order

  function Bag(x: Net): World {
    World(x.nodes, x.inbox + x.wire)
  }

  lemma {:induction false} SplitKeepsAll(s: seq<Envelope>, a: Addr)
    ensures multiset(To(s, a)) + multiset(NotTo(s, a)) == multiset(s)
    ensures forall v :: v in To(s, a) <==> v in s && v.to == a
    ensures forall v :: v in NotTo(s, a) <==> v in s && v.to != a
  {
    if s == [] {
    } else {
      SplitKeepsAll(s[1..], a);
      assert s == [s[0]] + s[1..];
    }
  }

  lemma WithoutOne<T>(s: seq<T>, i: nat)
    requires i < |s|
    ensures multiset(s) == multiset(Without(s, i)) + multiset{s[i]}
  {
    assert s == s[..i] + [s[i]] + s[i + 1..];
  }

  /** Without the order, an arrival is nothing and a handling is a delivery. */
  lemma GoInBag(c: Contest, x: Net, mv: Move)
    requires CanGo(x, mv)
    ensures mv.Arrive? ==> Go(c, x, mv).nodes == x.nodes
                           && multiset(Bag(Go(c, x, mv)).flight) == multiset(Bag(x).flight)
    ensures mv.Handle? ==>
              && mv.i < |Bag(x).flight| && Bag(x).flight[mv.i] == x.inbox[mv.i]
              && Go(c, x, mv).nodes == Deliver(c, Bag(x), mv.i).nodes
              && multiset(Bag(Go(c, x, mv)).flight) == multiset(Deliver(c, Bag(x), mv.i).flight)
  {
    hide Step, RouteAll;
    match mv {
      case Arrive(i) => WithoutOne(x.wire, i);
      case Handle(i) =>
        var v := x.inbox[i];
        var n := x.nodes[v.to];
        SplitKeepsAll(Sent(c, n, v), v.to);
        assert Bag(x).flight[i] == v;
        assert Without(x.inbox + x.wire, i) == Without(x.inbox, i) + x.wire;
        assert Deliver(c, Bag(x), i).flight == Without(x.inbox, i) + x.wire + Sent(c, n, v);
    }
  }

  lemma WithoutBoth<T>(s: seq<T>, i: nat, t: seq<T>, j: nat)
    requires i < |s| && j < |t| && s[i] == t[j] && multiset(s) == multiset(t)
    ensures multiset(Without(s, i)) == multiset(Without(t, j))
  {
    WithoutOne(s, i);
    WithoutOne(t, j);
    assert multiset(Without(s, i)) == multiset(s) - multiset{s[i]};
  }

  lemma SameMembers<T>(s: seq<T>, t: seq<T>)
    requires multiset(s) == multiset(t)
    ensures |s| == |t| && forall v :: v in s <==> v in t
  {
    assert |multiset(s)| == |s| && |multiset(t)| == |t|;
    forall v ensures v in s <==> v in t {
      assert v in s <==> v in multiset(s);
      assert v in t <==> v in multiset(t);
    }
  }

  lemma RaceInvInAnyOrder(c: Contest, nodes: map<Addr, Node>, s: seq<Envelope>, t: seq<Envelope>)
    requires multiset(s) == multiset(t) && RaceInv(c, World(nodes, s))
    ensures RaceInv(c, World(nodes, t))
  {
    hide Contestant, Proper;
    SameMembers(s, t);
    forall i | 0 <= i < |t| ensures Proper(c, t[i]) {
      assert t[i] in s;
    }
  }

  lemma {:induction false} VotesInAnyOrder(m: Addr, s: seq<Envelope>, t: seq<Envelope>)
    requires multiset(s) == multiset(t)
    ensures VotesInFlight(m, s) == VotesInFlight(m, t)
    decreases |s|
  {
    SameMembers(s, t);
    if s == [] {
    } else {
      assert s[0] in t;
      var i :| 0 <= i < |t| && t[i] == s[0];
      WithoutBoth(s, 0, t, i);
      VotesWithout(m, s, 0);
      VotesWithout(m, t, i);
      VotesInAnyOrder(m, Without(s, 0), Without(t, i));
    }
  }

  lemma {:induction false} WeightInAnyOrder(c: Contest, s: seq<Envelope>, t: seq<Envelope>)
    requires multiset(s) == multiset(t)
    ensures FlightWeight(c, s) == FlightWeight(c, t)
    decreases |s|
  {
    hide Weight;
    SameMembers(s, t);
    if s == [] {
    } else {
      assert s[0] in t;
      var i :| 0 <= i < |t| && t[i] == s[0];
      WithoutBoth(s, 0, t, i);
      FlightWithout(c, s, 0);
      FlightWithout(c, t, i);
      WeightInAnyOrder(c, Without(s, 0), Without(t, i));
    }
  }

  lemma VotesAddUpInAnyOrder(c: Contest, m: Addr, nodes: map<Addr, Node>, s: seq<Envelope>, t: seq<Envelope>)
    requires multiset(s) == multiset(t) && m in nodes && VotesAddUp(c, m, World(nodes, s))
    ensures VotesAddUp(c, m, World(nodes, t))
  {
    hide Followers, VotesInFlight, Follows;
    SameMembers(s, t);
    VotesInAnyOrder(m, s, t);
    forall i | 0 <= i < |t| && NotAnnounced(m, s) ensures !(t[i].event.LeaderAck? && t[i].event.addr == m) {
      assert t[i] in s;
    }
  }

  // ----- what every move keeps

  /** The race goes on between hosts that stood, and no connection leads a host to itself. */
  ghost predicate NetInv(c: Contest, x: Net) {
    && RaceInv(c, Bag(x))
    && (forall v :: v in x.inbox + x.wire ==> v.from in c.ts)
    && (forall v :: v in x.wire ==> v.from != v.to)
  }

  lemma GoKeepsInv(c: Contest, x: Net, mv: Move)
    requires NetInv(c, x) && CanGo(x, mv)
    ensures NetInv(c, Go(c, x, mv))
  {
    hide Step, RouteAll, RaceInv, Proper;
    GoInBag(c, x, mv);
    match mv {
      case Arrive(i) =>
        RaceInvInAnyOrder(c, x.nodes, Bag(x).flight, Bag(Go(c, x, mv)).flight);
        SameMembers(Bag(x).flight, Bag(Go(c, x, mv)).flight);
        WithoutOne(x.wire, i);
        WithoutMembers(x.wire, i);
      case Handle(i) =>
        DeliverKeepsInv(c, Bag(x), i);
        var w := Deliver(c, Bag(x), i);
        RaceInvInAnyOrder(c, w.nodes, w.flight, Bag(Go(c, x, mv)).flight);
        var v := x.inbox[i];
        RouteFrom(c.order, v.to, v.from, v.event, Step(x.nodes[v.to], v.event).out);
        SplitKeepsAll(Sent(c, x.nodes[v.to], v), v.to);
        WithoutMembers(x.inbox, i);
        ToInRace(c, Bag(x), i);
    }
  }

  lemma ToInRace(c: Contest, w: World, i: nat)
    requires RaceInv(c, w) && i < |w.flight|
    ensures w.flight[i].to in c.ts && w.flight[i].to in w.nodes
  { }

  lemma WithoutMembers<T>(s: seq<T>, i: nat)
    requires i < |s|
    ensures forall v :: v in Without(s, i) ==> v in s
  { }

  lemma {:induction false} RouteFrom(order: seq<Addr>, who: Addr, from: Addr, e: Event, out: seq<Output>)
    ensures forall v :: v in RouteAll(order, who, from, e, out) ==> v.from == who
  {
    if out == [] {
    } else {
      RouteFrom(order, who, from, e, out[1..]);
      forall v | v in Route(order, who, from, e, out[0]) ensures v.from == who {
        if out[0].Broadcast? && ToEvent(out[0].req).Some? {
          FanMembers(order, who, ToEvent(out[0].req).value, v);
        }
      }
    }
  }

  lemma GoKeepsVotes(c: Contest, m: Addr, x: Net, mv: Move)
    requires NetInv(c, x) && IsEarliest(c, m) && CanGo(x, mv) && m in x.nodes && VotesAddUp(c, m, Bag(x))
    ensures m in Go(c, x, mv).nodes && VotesAddUp(c, m, Bag(Go(c, x, mv)))
  {
    hide Step, RouteAll, RaceInv, VotesAddUp;
    GoInBag(c, x, mv);
    match mv {
      case Arrive(i) => VotesAddUpInAnyOrder(c, m, x.nodes, Bag(x).flight, Bag(Go(c, x, mv)).flight);
      case Handle(i) =>
        ToInRace(c, Bag(x), i);
        DeliverVotesAddUp(c, m, Bag(x), i);
        var w := Deliver(c, Bag(x), i);
        VotesAddUpInAnyOrder(c, m, w.nodes, w.flight, Bag(Go(c, x, mv)).flight);
    }
  }

  // ----- every run ends

  /** Every delivery is one arrival and one handling, or for what a host sends itself, one handling. */
  function Effort(c: Contest, x: Net): int {
    2 * Potential(c, Bag(x)) - |x.inbox|
  }

  lemma {:induction false} ManyWeighMore(c: Contest, s: seq<Envelope>)
    requires forall v :: v in s ==> Proper(c, v)
    ensures FlightWeight(c, s) >= |s|
  {
    hide TsWeight;
    if s == [] {
    } else {
      ManyWeighMore(c, s[1..]);
      assert Proper(c, s[0]);
    }
  }

  lemma EffortIsNatural(c: Contest, x: Net)
    requires NetInv(c, x)
    ensures Effort(c, x) >= |x.inbox| + |x.wire|
  {
    hide Proper, FlightWeight;
    ManyWeighMore(c, Bag(x).flight);
  }

  lemma GoTakesEffort(c: Contest, x: Net, mv: Move)
    requires NetInv(c, x) && CanGo(x, mv)
    ensures Effort(c, Go(c, x, mv)) < Effort(c, x)
  {
    hide Step, RouteAll, RaceInv, FlightWeight, NodesWeight;
    GoInBag(c, x, mv);
    match mv {
      case Arrive(i) => WeightInAnyOrder(c, Bag(x).flight, Bag(Go(c, x, mv)).flight);
      case Handle(i) =>
        ToInRace(c, Bag(x), i);
        DeliverIsLighter(c, Bag(x), i);
        WeightInAnyOrder(c, Deliver(c, Bag(x), i).flight, Bag(Go(c, x, mv)).flight);
    }
  }

  /** However the hosts and connections take turns, the race is over after so many moves. */
  lemma {:induction false} EveryRunEnds(c: Contest, x: Net, ms: seq<Move>)
    requires NetInv(c, x) && CanRun(c, x, ms)
    ensures NetInv(c, Run(c, x, ms)) && |ms| <= Effort(c, x) - Effort(c, Run(c, x, ms)) <= Effort(c, x)
    decreases |ms|
  {
    hide Go, CanGo, NetInv, Effort;
    if ms == [] {
      EffortIsNatural(c, x);
    } else {
      GoKeepsInv(c, x, ms[0]);
      GoTakesEffort(c, x, ms[0]);
      EveryRunEnds(c, Go(c, x, ms[0]), ms[1..]);
      EffortIsNatural(c, Run(c, x, ms));
    }
  }

  // ----- the order on each connection

  /** What of `s` goes from `u` to `a`. */
  function On(s: seq<Envelope>, u: Addr, a: Addr): seq<Event> {
    if s == [] then []
    else (if s[0].from == u && s[0].to == a then [s[0].event] else []) + On(s[1..], u, a)
  }

  lemma {:induction false} OnConcat(s: seq<Envelope>, t: seq<Envelope>, u: Addr, a: Addr)
    ensures On(s + t, u, a) == On(s, u, a) + On(t, u, a)
  {
    if s == [] {
      assert s + t == t;
    } else {
      assert (s + t)[1..] == s[1..] + t;
      OnConcat(s[1..], t, u, a);
    }
  }

  lemma {:induction false} OnNothing(s: seq<Envelope>, u: Addr, a: Addr)
    requires forall v :: v in s ==> v.from != u || v.to != a
    ensures On(s, u, a) == []
  {
    if s == [] {
    } else {
      OnNothing(s[1..], u, a);
    }
  }

  lemma OnWithout(s: seq<Envelope>, i: nat, u: Addr, a: Addr)
    requires i < |s|
    requires forall k :: 0 <= k < i ==> !SameLink(s[k], s[i])
    ensures On(s, u, a) == (if s[i].from == u && s[i].to == a then [s[i].event] else []) + On(Without(s, i), u, a)
  {
    assert s == s[..i] + ([s[i]] + s[i + 1..]);
    OnConcat(s[..i], [s[i]] + s[i + 1..], u, a);
    OnConcat([s[i]], s[i + 1..], u, a);
    OnConcat(s[..i], s[i + 1..], u, a);
    assert [s[i]][1..] == [];
    if s[i].from == u && s[i].to == a {
      OnNothing(s[..i], u, a);
    }
  }

  lemma {:induction false} OnSplit(s: seq<Envelope>, a: Addr, u: Addr, b: Addr)
    ensures On(To(s, a), u, b) == if a == b then On(s, u, b) else []
    ensures On(NotTo(s, a), u, b) == if a == b then [] else On(s, u, b)
  {
    if s == [] {
    } else {
      OnSplit(s[1..], a, u, b);
      var mine := if s[0].to == a then [s[0]] else [];
      var others := if s[0].to == a then [] else [s[0]];
      OnConcat(mine, To(s[1..], a), u, b);
      OnConcat(others, NotTo(s[1..], a), u, b);
      assert [s[0]][1..] == [];
    }
  }

  lemma {:induction false} OnFan(order: seq<Addr>, who: Addr, e: Event, a: Addr)
    requires forall i, j :: 0 <= i < j < |order| ==> order[i] != order[j]
    ensures On(Fan(order, who, e), who, a) == if a in order && a != who then [e] else []
  {
    if order == [] {
    } else {
      OnFan(order[1..], who, e, a);
      var head := if order[0] == who then [] else [Envelope(who, order[0], e)];
      OnConcat(head, Fan(order[1..], who, e), who, a);
      assert [Envelope(who, order[0], e)][1..] == [];
      assert order == [order[0]] + order[1..];
    }
  }

  /** What is on the way from `u` to `a`, in order; for `u == a`, what it has sent itself. */
  function Link(x: Net, u: Addr, a: Addr): seq<Event> {
    On(x.inbox + x.wire, u, a)
  }

  // ----- how a host in a race responds, by address alone

  /** The leader and count after an event, and what the host sends itself and everybody else. */
  datatype Response = Response(lead: Addr, acks: nat, own: seq<Event>, out: seq<Event>)

  /** `check_leadership_conflict` */
  function Objection(c: Contest, lead: Addr, acks: nat, x: Addr, t: int): Response
    requires lead in c.ts
  {
    var switch := Event.LeaderSwitchPriority(x, t);
    if t < c.ts[lead] then Response(lead, acks, [switch], [switch])
    else Response(lead, acks, [], [Event.LeaderSwitchPriority(lead, c.ts[lead])])
  }

  function Respond(c: Contest, a: Addr, lead: Addr, acks: nat, e: Event): Response
    requires lead in c.ts && a in c.ts
  {
    match e
    case LeaderReq(x, t) => Objection(c, lead, acks, x, t)
    case LeaderReqAck(x, t) =>
      var r := Objection(c, lead, acks, x, t);
      if x == a && lead == a then
        Response(lead, acks + 1, r.own,
                 r.out + if acks + 1 >= |c.order| / 2 then [Event.LeaderAck(a, c.ts[a])] else [])
      else r
    case LeaderSwitchPriority(x, t) =>
      if t < c.ts[lead] then Response(x, acks, [], if x == a then [] else [Event.LeaderReqAck(x, t)])
      else Response(lead, acks, [], [])
    case LeaderAck(x, _) => Response(x, 0, [], [])
    case _ => Response(lead, acks, [], [])
  }

  ghost predicate LedBy(n: Node, a: Addr) {
    n.leader.Some? && LeaderAddr(n) == a
  }

  lemma ContestantLeader(c: Contest, a: Addr, n: Node)
    requires a in c.ts && Contestant(c, a, n)
    ensures n.leader.Some? && LeaderAddr(n) in c.ts && LeaderTs(n) == c.ts[LeaderAddr(n)]
    ensures n.leader.value.Local? <==> LeaderAddr(n) == a
    ensures n.state == Follower <==> LeaderAddr(n) != a
  { }

  lemma OnAlarm(c: Contest, a: Addr, n: Node, x: Addr, t: int, q: Addr)
    requires ValidContest(c) && a in c.ts && Contestant(c, a, n) && q in c.ts
    ensures var r := Objection(c, LeaderAddr(n), n.acks, x, t);
            On(Alarm(c, a, n, x, t), a, q) == if q == a then r.own else r.out
  {
    hide Fan, Contestant;
    ContestantLeader(c, a, n);
    var mine, other := Event.LeaderSwitchPriority(x, t), Event.LeaderSwitchPriority(LeaderAddr(n), LeaderTs(n));
    OnFan(c.order, a, mine, q);
    OnFan(c.order, a, other, q);
    OnConcat([Envelope(a, a, mine)], Fan(c.order, a, mine), a, q);
    assert [Envelope(a, a, mine)][1..] == [];
  }

  ghost predicate RespondsTo(c: Contest, n: Node, v: Envelope, q: Addr)
    requires v.to in c.ts && n.leader.Some? && LeaderAddr(n) in c.ts
  {
    var r := Respond(c, v.to, LeaderAddr(n), n.acks, v.event);
    var n' := Step(n, v.event).node;
    && LedBy(n', r.lead) && n'.acks == r.acks
    && On(Sent(c, n, v), v.to, q) == if q == v.to then r.own else r.out
  }

  lemma RespondsToReq(c: Contest, n: Node, v: Envelope, q: Addr)
    requires ValidContest(c) && v.to in c.ts && Contestant(c, v.to, n) && Proper(c, v) && q in c.ts
    requires v.event.LeaderReq?
    ensures LeaderAddr(n) in c.ts && RespondsTo(c, n, v, q)
  {
    hide Step, RouteAll, Alarm, Objection, Connected, On, Contestant, Proper;
    ContestantLeader(c, v.to, n);
    OnReq(c, v.to, n, v.from, v.event.addr, v.event.ts);
    OnAlarm(c, v.to, n, v.event.addr, v.event.ts, q);
    ObjectionKeeps(c, LeaderAddr(n), n.acks, v.event.addr, v.event.ts);
  }

  lemma RespondsToReqAck(c: Contest, n: Node, v: Envelope, q: Addr)
    requires ValidContest(c) && v.to in c.ts && Contestant(c, v.to, n) && Proper(c, v) && q in c.ts
    requires v.event.LeaderReqAck?
    ensures LeaderAddr(n) in c.ts && RespondsTo(c, n, v, q)
  {
    hide Step, RouteAll, Alarm, Fan, Objection, On, Contestant, Proper;
    var a, x, t := v.to, v.event.addr, v.event.ts;
    ContestantLeader(c, a, n);
    ContestantWhoami(c, a, n);
    OnReqAck(c, a, n, v.from, x, t);
    OnAlarm(c, a, n, x, t, q);
    ObjectionKeeps(c, LeaderAddr(n), n.acks, x, t);
    var news := Event.LeaderAck(a, c.ts[a]);
    OnFan(c.order, a, news, q);
    OnConcat(Alarm(c, a, n, x, t), Fan(c.order, a, news), a, q);
    assert Alarm(c, a, n, x, t) + [] == Alarm(c, a, n, x, t);
  }

  lemma RespondsToRest(c: Contest, n: Node, v: Envelope, q: Addr)
    requires ValidContest(c) && v.to in c.ts && Contestant(c, v.to, n) && Proper(c, v) && q in c.ts
    requires v.event.LeaderSwitchPriority? || v.event.LeaderAck?
    ensures LeaderAddr(n) in c.ts && RespondsTo(c, n, v, q)
  {
    hide Step, RouteAll, Fan, Connected;
    ContestantLeader(c, v.to, n);
    match v.event {
      case LeaderSwitchPriority(x, t) =>
        OnPriority(c, v.to, n, v.from, x, t);
        OnFan(c.order, v.to, Event.LeaderReqAck(x, t), q);
        assert Yields(n, v.event) <==> t < c.ts[LeaderAddr(n)];
        ContestantLeader(c, v.to, Step(n, v.event).node);
      case LeaderAck(x, t) =>
        OnAck(c, v.to, n, v.from, x, t);
        ContestantLeader(c, v.to, Step(n, v.event).node);
    }
  }

  lemma ContestantWhoami(c: Contest, a: Addr, n: Node)
    requires a in c.ts && Contestant(c, a, n)
    ensures n.cfg.whoami == a
  { }

  lemma ObjectionKeeps(c: Contest, lead: Addr, acks: nat, x: Addr, t: int)
    requires lead in c.ts
    ensures var r := Objection(c, lead, acks, x, t); r.lead == lead && r.acks == acks
  { }

  lemma Responds(c: Contest, n: Node, v: Envelope, q: Addr)
    requires ValidContest(c) && v.to in c.ts && Contestant(c, v.to, n) && Proper(c, v) && q in c.ts
    ensures n.leader.Some? && LeaderAddr(n) in c.ts && RespondsTo(c, n, v, q)
  {
    hide RespondsTo, Contestant, LeaderAddr;
    ContestantLeader(c, v.to, n);
    match v.event {
      case LeaderReq(_, _) => RespondsToReq(c, n, v, q);
      case LeaderReqAck(_, _) => RespondsToReqAck(c, n, v, q);
      case _ => RespondsToRest(c, n, v, q);
    }
  }

  // ----- what a move does, by address

  function Lead(x: Net, a: Addr): Addr {
    if a in x.nodes && x.nodes[a].leader.Some? then LeaderAddr(x.nodes[a]) else a
  }

  function Acks(x: Net, a: Addr): nat {
    if a in x.nodes then x.nodes[a].acks else 0
  }

  /** All of `s` behind its first element. */
  function Rest<T>(s: seq<T>): seq<T> {
    if s == [] then [] else s[1..]
  }

  /** From `x` to `y`, `a` has handled `e`, which was next on the way from `u`. */
  ghost predicate Handled(c: Contest, x: Net, y: Net, u: Addr, a: Addr, e: Event) {
    && u in c.ts && a in c.ts && Lead(x, a) in c.ts
    && Link(x, u, a) != [] && Link(x, u, a)[0] == e
    && var r := Respond(c, a, Lead(x, a), Acks(x, a), e);
    && Lead(y, a) == r.lead && Acks(y, a) == r.acks
    && (forall p :: p != a ==> Lead(y, p) == Lead(x, p) && Acks(y, p) == Acks(x, p))
    && (forall p, q :: p in c.ts && q in c.ts ==>
          Link(y, p, q) == (if p == u && q == a then Rest(Link(x, p, q)) else Link(x, p, q))
                           + (if p != a then [] else if q == a then r.own else r.out))
  }

  /** Nothing has happened that a handler could tell. */
  ghost predicate SameLinks(c: Contest, x: Net, y: Net) {
    && (forall p :: Lead(y, p) == Lead(x, p) && Acks(y, p) == Acks(x, p))
    && (forall p, q :: p in c.ts && q in c.ts ==> Link(y, p, q) == Link(x, p, q))
  }

  lemma ArriveEffect(c: Contest, x: Net, i: nat)
    requires NetInv(c, x) && CanGo(x, Arrive(i))
    ensures SameLinks(c, x, Go(c, x, Arrive(i)))
  {
    hide NetInv;
    var v := x.wire[i];
    forall p, q | p in c.ts && q in c.ts ensures Link(Go(c, x, Arrive(i)), p, q) == Link(x, p, q) {
      OnConcat(x.inbox, x.wire, p, q);
      OnConcat(x.inbox + [v], Without(x.wire, i), p, q);
      OnConcat(x.inbox, [v], p, q);
      OnWithout(x.wire, i, p, q);
      assert [v][1..] == [];
    }
  }

  lemma QueuesAfter(c: Contest, x: Net, i: nat, p: Addr, q: Addr)
    requires NetInv(c, x) && CanGo(x, Handle(i))
    ensures var v := x.inbox[i];
            var sent := Sent(c, x.nodes[v.to], v);
            Link(Go(c, x, Handle(i)), p, q)
            == if q == v.to then On(Without(x.inbox, i), p, q) + On(sent, p, q) + On(x.wire, p, q)
               else On(Without(x.inbox, i), p, q) + On(x.wire, p, q) + On(sent, p, q)
  {
    hide NetInv, On, To, NotTo;
    var v := x.inbox[i];
    var sent := Sent(c, x.nodes[v.to], v);
    OnConcat(Without(x.inbox, i) + To(sent, v.to), x.wire + NotTo(sent, v.to), p, q);
    OnConcat(Without(x.inbox, i), To(sent, v.to), p, q);
    OnConcat(x.wire, NotTo(sent, v.to), p, q);
    OnSplit(sent, v.to, p, q);
  }

  lemma HandleLinks(c: Contest, x: Net, i: nat, p: Addr, q: Addr)
    requires NetInv(c, x) && CanGo(x, Handle(i))
    ensures var v := x.inbox[i];
            Link(Go(c, x, Handle(i)), p, q)
            == (if p == v.from && q == v.to then Rest(Link(x, p, q)) else Link(x, p, q))
               + if p == v.to then On(Sent(c, x.nodes[v.to], v), v.to, q) else []
    ensures p == x.inbox[i].from && q == x.inbox[i].to ==> Link(x, p, q) != [] && Link(x, p, q)[0] == x.inbox[i].event
  {
    hide RaceInv, On, Sent, Go;
    var v := x.inbox[i];
    var sent := Sent(c, x.nodes[v.to], v);
    QueuesAfter(c, x, i, p, q);
    OnConcat(x.inbox, x.wire, p, q);
    OnWithout(x.inbox, i, p, q);
    SentFrom(c, x.nodes[v.to], v);
    if p != v.to { OnNothing(sent, p, q); }
    if p == q { OnNothing(x.wire, p, q); }
  }

  lemma SentFrom(c: Contest, n: Node, v: Envelope)
    ensures forall w :: w in Sent(c, n, v) ==> w.from == v.to
  {
    RouteFrom(c.order, v.to, v.from, v.event, Step(n, v.event).out);
  }

  lemma HandleEffect(c: Contest, x: Net, i: nat)
    requires NetInv(c, x) && CanGo(x, Handle(i))
    ensures Handled(c, x, Go(c, x, Handle(i)), x.inbox[i].from, x.inbox[i].to, x.inbox[i].event)
  {
    hide Step, RouteAll, On, Contestant, Proper, Respond, Link;
    var v := x.inbox[i];
    var n := x.nodes[v.to];
    var y := Go(c, x, Handle(i));
    HandlerInRace(c, x, i);
    forall p, q | p in c.ts && q in c.ts
      ensures var r := Respond(c, v.to, Lead(x, v.to), Acks(x, v.to), v.event);
              && Lead(y, v.to) == r.lead && Acks(y, v.to) == r.acks
              && Link(y, p, q) == (if p == v.from && q == v.to then Rest(Link(x, p, q)) else Link(x, p, q))
                                  + (if p != v.to then [] else if q == v.to then r.own else r.out)
    {
      Responds(c, n, v, q);
      HandleLinks(c, x, i, p, q);
    }
    HandleLinks(c, x, i, v.from, v.to);
  }

  lemma HandlerInRace(c: Contest, x: Net, i: nat)
    requires NetInv(c, x) && CanGo(x, Handle(i))
    ensures var v := x.inbox[i];
            && ValidContest(c) && v.to in c.ts && v.from in c.ts && v.to in x.nodes
            && Contestant(c, v.to, x.nodes[v.to]) && Proper(c, v)
            && Lead(x, v.to) in c.ts && x.nodes[v.to].leader.Some?
  {
    hide Contestant, Proper, ValidContest, LeaderAddr;
    assert Bag(x).flight[i] == x.inbox[i];
    ToInRace(c, Bag(x), i);
    ContestantLeader(c, x.inbox[i].to, x.nodes[x.inbox[i].to]);
  }

  // ----- the start and the end

  /** Every host stands, and nothing but the requests of the candidates is on the way, each at least once to
      everybody else. */
  ghost predicate Begins(c: Contest, x: Net) {
    && AllStand(c, Bag(x))
    && forall v :: v in x.inbox + x.wire ==> v.event.LeaderReq? && v.from == v.event.addr
  }

  lemma BeginsInRace(c: Contest, x: Net)
    requires Begins(c, x)
    ensures NetInv(c, x) && AllStand(c, Bag(x)) && ValidContest(c)
  {
    hide Connected;
    StartIsRace(c, Bag(x));
    forall v | v in x.inbox + x.wire ensures v.from in c.ts && v.from != v.to {
      var i :| 0 <= i < |Bag(x).flight| && Bag(x).flight[i] == v;
      assert Proper(c, Bag(x).flight[i]);
    }
  }

  /** With nothing on the way and everybody led by `m`, `m` has been elected. */
  lemma AllLedIsElected(c: Contest, m: Addr, x: Net)
    requires NetInv(c, x) && IsEarliest(c, m) && m in x.nodes && VotesAddUp(c, m, Bag(x))
    requires x.inbox + x.wire == [] && (forall a :: a in c.ts ==> Lead(x, a) == m)
    ensures x.nodes.Keys == c.ts.Keys && Elected(c, m, Bag(x))
  {
    hide VotesAddUp, Elected, Contestant;
    SameHosts(c, Bag(x));
    forall a | a in c.ts ensures Carried(m, a, Bag(x)) {
      ContestantLeader(c, a, x.nodes[a]);
    }
    QuietIsElected(c, m, Bag(x));
  }
}
