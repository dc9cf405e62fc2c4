/** Of all hosts that stand at once, the one with the earliest timestamp is elected, unless the
    announcement of another one reaches a host that has nothing left to lead it back. */
module Earliest {
  import opened Types
  import opened QuorumStep
  import opened Wire
  import opened Race
  import opened Cascade

  ghost predicate IsEarliest(c: Contest, m: Addr) {
    m in c.ts && forall a :: a in c.ts && a != m ==> c.ts[m] < c.ts[a]
  }

  predicate Follows(m: Addr, n: Node) {
    n.leader.Some? && LeaderAddr(n) == m
  }

  /** The candidate that a message of the conflict resolution names. */
  function Candidate(e: Event): Option<Addr> {
    match e
    case LeaderReq(x, _) => Some(x)
    case LeaderReqAck(x, _) => Some(x)
    case LeaderSwitchPriority(x, _) => Some(x)
    case LeaderAck(x, _) => Some(x)
    case _ => None
  }

  predicate Carries(m: Addr, j: Addr, v: Envelope) {
    v.to == j && Candidate(v.event) == Some(m)
  }

  ghost predicate InFlightTo(m: Addr, j: Addr, flight: seq<Envelope>) {
    exists v :: v in flight && Carries(m, j, v)
  }

  /** The host follows `m` or a message that names `m` is on the way to it. */
  ghost predicate Carried(m: Addr, j: Addr, w: World)
    requires j in w.nodes
  {
    Follows(m, w.nodes[j]) || InFlightTo(m, j, w.flight)
  }

  ghost predicate AllCarried(c: Contest, m: Addr, w: World)
    requires w.nodes.Keys == c.ts.Keys
  {
    forall j :: j in c.ts ==> Carried(m, j, w)
  }

  /** The announcement of somebody else. */
  predicate LoserAck(m: Addr, v: Envelope) {
    v.event.LeaderAck? && v.event.addr != m
  }

  /** It is about to pull a host away from `m` that no message would lead back. */
  ghost predicate Harmful(m: Addr, w: World, i: nat)
    requires i < |w.flight| && w.flight[i].to in w.nodes
  {
    var v := w.flight[i];
    LoserAck(m, v) && Follows(m, w.nodes[v.to]) && !InFlightTo(m, v.to, w.flight)
  }

  // ----- the earliest candidate is never lost, except by a harmful announcement

  lemma KeptInFlight(m: Addr, j: Addr, flight: seq<Envelope>, i: nat)
    requires i < |flight| && !Carries(m, j, flight[i])
    ensures InFlightTo(m, j, Without(flight, i)) <==> InFlightTo(m, j, flight)
  {
    if InFlightTo(m, j, flight) {
      var v :| v in flight && Carries(m, j, v);
      var k :| 0 <= k < |flight| && flight[k] == v;
      assert Without(flight, i)[if k < i then k else k - 1] == v;
      assert v in Without(flight, i);
    }
    if InFlightTo(m, j, Without(flight, i)) {
      var v :| v in Without(flight, i) && Carries(m, j, v);
      assert v in flight;
    }
  }

  lemma MoreInFlight(m: Addr, j: Addr, a: seq<Envelope>, b: seq<Envelope>)
    ensures InFlightTo(m, j, a + b) <==> InFlightTo(m, j, a) || InFlightTo(m, j, b)
  {
    if InFlightTo(m, j, a) {
      var v :| v in a && Carries(m, j, v);
      assert v in a + b;
    }
    if InFlightTo(m, j, b) {
      var v :| v in b && Carries(m, j, v);
      assert v in a + b;
    }
  }

  lemma AlarmCarries(c: Contest, a: Addr, n: Node, t: int, m: Addr)
    requires n.leader.Some? && t < LeaderTs(n)
    ensures InFlightTo(m, a, Alarm(c, a, n, m, t))
  {
    var v := Envelope(a, a, Event.LeaderSwitchPriority(m, t));
    assert Alarm(c, a, n, m, t)[0] == v;
    assert v in Alarm(c, a, n, m, t) && Carries(m, a, v);
  }

  /** Who takes a message that names `m` follows `m` afterwards or has sent itself another one. */
  lemma TakingTheCarrier(c: Contest, m: Addr, a: Addr, n: Node, v: Envelope)
    requires ValidContest(c) && IsEarliest(c, m) && a in c.ts && Contestant(c, a, n)
    requires Proper(c, v) && Carries(m, a, v)
    ensures var r := Step(n, v.event);
            Follows(m, r.node) || InFlightTo(m, a, RouteAll(c.order, a, v.from, v.event, r.out))
  {
    hide Step, RouteAll, Fan, Alarm, InFlightTo;
    match v.event {
      case LeaderReq(x, t) =>
        OnReq(c, a, n, v.from, x, t);
        if !Follows(m, n) { AlarmCarries(c, a, n, t, m); }
      case LeaderReqAck(x, t) =>
        OnReqAck(c, a, n, v.from, x, t);
        if !Follows(m, n) {
          AlarmCarries(c, a, n, t, m);
          assert Alarm(c, a, n, x, t) + [] == Alarm(c, a, n, x, t);
        }
      case LeaderSwitchPriority(x, t) => OnPriority(c, a, n, v.from, x, t);
      case LeaderAck(x, t) => OnAck(c, a, n, v.from, x, t);
    }
  }

  /** Nothing else than another announcement pulls a host away from `m`. */
  lemma StaysWithEarliest(c: Contest, m: Addr, a: Addr, n: Node, v: Envelope)
    requires ValidContest(c) && IsEarliest(c, m) && a in c.ts && Contestant(c, a, n)
    requires Proper(c, v) && v.to == a && Follows(m, n)
    ensures Follows(m, Step(n, v.event).node) <==> !LoserAck(m, v)
  {
    hide Step, RouteAll, Fan, Alarm;
    match v.event {
      case LeaderReq(x, t) => OnReq(c, a, n, v.from, x, t);
      case LeaderReqAck(x, t) => OnReqAck(c, a, n, v.from, x, t);
      case LeaderSwitchPriority(x, t) => OnPriority(c, a, n, v.from, x, t);
      case LeaderAck(x, t) => OnAck(c, a, n, v.from, x, t);
    }
  }

  lemma LoserAckSendsNothing(c: Contest, m: Addr, a: Addr, n: Node, v: Envelope)
    requires ValidContest(c) && a in c.ts && Contestant(c, a, n) && Proper(c, v) && v.to == a && LoserAck(m, v)
    ensures var r := Step(n, v.event);
            !Follows(m, r.node) && RouteAll(c.order, a, v.from, v.event, r.out) == []
  {
    hide Step, RouteAll;
    OnAck(c, a, n, v.from, v.event.addr, v.event.ts);
  }

  lemma TakerCarried(c: Contest, m: Addr, w: World, i: nat)
    requires RaceInv(c, w) && IsEarliest(c, m) && i < |w.flight| && Carried(m, w.flight[i].to, w)
    ensures Carried(m, w.flight[i].to, Deliver(c, w, i)) <==> !Harmful(m, w, i)
  {
    hide Step, RouteAll, Contestant, Proper, InFlightTo, Follows, Without;
    var v := w.flight[i];
    ProperTo(c, v);
    var a, n := v.to, w.nodes[v.to];
    var sent := RouteAll(c.order, a, v.from, v.event, Step(n, v.event).out);
    MoreInFlight(m, a, Without(w.flight, i), sent);
    if Carries(m, a, v) {
      TakingTheCarrier(c, m, a, n, v);
    } else {
      KeptInFlight(m, a, w.flight, i);
      if LoserAck(m, v) {
        LoserAckSendsNothing(c, m, a, n, v);
        assert Without(w.flight, i) + sent == Without(w.flight, i);
      } else if Follows(m, n) {
        StaysWithEarliest(c, m, a, n, v);
      }
    }
  }

  lemma OtherCarried(c: Contest, m: Addr, w: World, i: nat, j: Addr)
    requires RaceInv(c, w) && i < |w.flight| && j in c.ts && j != w.flight[i].to && Carried(m, j, w)
    ensures w.flight[i].to in w.nodes && j in Deliver(c, w, i).nodes && Carried(m, j, Deliver(c, w, i))
  {
    hide Step, RouteAll, Contestant, InFlightTo, Follows, Without;
    var v := w.flight[i];
    KeptInFlight(m, j, w.flight, i);
    var sent := RouteAll(c.order, v.to, v.from, v.event, Step(w.nodes[v.to], v.event).out);
    MoreInFlight(m, j, Without(w.flight, i), sent);
  }

  /** While every host is carried towards the earliest candidate, the next delivery leaves it so if
      and only if it is not harmful. */
  lemma OnlyHarmLosesAHost(c: Contest, m: Addr, w: World, i: nat)
    requires RaceInv(c, w) && IsEarliest(c, m) && AllCarried(c, m, w) && i < |w.flight|
    ensures RaceInv(c, Deliver(c, w, i))
    ensures AllCarried(c, m, Deliver(c, w, i)) <==> !Harmful(m, w, i)
  {
    hide Step, RouteAll, Contestant, Proper, Carried, Harmful;
    DeliverKeepsInv(c, w, i);
    ProperTo(c, w.flight[i]);
    TakerCarried(c, m, w, i);
    forall j | j in c.ts && j != w.flight[i].to ensures Carried(m, j, Deliver(c, w, i)) {
      OtherCarried(c, m, w, i, j);
    }
  }

  // ----- counting the votes for the earliest candidate

  predicate VoteFor(m: Addr, v: Envelope) {
    v.to == m && v.event.LeaderReqAck? && v.event.addr == m
  }

  function VotesInFlight(m: Addr, flight: seq<Envelope>): nat {
    if flight == [] then 0 else (if VoteFor(m, flight[0]) then 1 else 0) + VotesInFlight(m, flight[1..])
  }

  /** The other hosts that follow `m`. */
  function Followers(m: Addr, order: seq<Addr>, nodes: map<Addr, Node>): nat {
    if order == [] then 0
    else (if order[0] != m && order[0] in nodes && Follows(m, nodes[order[0]]) then 1 else 0)
         + Followers(m, order[1..], nodes)
  }

  ghost predicate NotAnnounced(m: Addr, flight: seq<Envelope>) {
    forall i :: 0 <= i < |flight| ==> !(flight[i].event.LeaderAck? && flight[i].event.addr == m)
  }

  /** Until it leads, every follower of `m` has voted for it, and the vote was counted or is on the way. */
  ghost predicate VotesAddUp(c: Contest, m: Addr, w: World)
    requires m in w.nodes
  {
    var n := w.nodes[m];
    Follows(m, n) && n.state != QuorumState.Leader ==>
      && NotAnnounced(m, w.flight)
      && n.acks < |c.order| / 2
      && Followers(m, c.order, w.nodes) <= n.acks + VotesInFlight(m, w.flight)
  }

  lemma {:induction false} VotesConcat(m: Addr, a: seq<Envelope>, b: seq<Envelope>)
    ensures VotesInFlight(m, a + b) == VotesInFlight(m, a) + VotesInFlight(m, b)
  {
    if a == [] {
      assert a + b == b;
    } else {
      assert (a + b)[1..] == a[1..] + b;
      VotesConcat(m, a[1..], b);
    }
  }

  lemma VotesWithout(m: Addr, flight: seq<Envelope>, i: nat)
    requires i < |flight|
    ensures VotesInFlight(m, flight) == VotesInFlight(m, Without(flight, i)) + if VoteFor(m, flight[i]) then 1 else 0
  {
    assert flight == flight[..i] + ([flight[i]] + flight[i + 1..]);
    VotesConcat(m, flight[..i], [flight[i]] + flight[i + 1..]);
    VotesConcat(m, flight[..i], flight[i + 1..]);
  }

  lemma {:induction false} FanVotes(m: Addr, order: seq<Addr>, who: Addr, t: int)
    requires m in order && m != who
    ensures VotesInFlight(m, Fan(order, who, Event.LeaderReqAck(m, t))) >= 1
  {
    var e := Event.LeaderReqAck(m, t);
    var head := if order[0] == who then [] else [Envelope(who, order[0], e)];
    VotesConcat(m, head, Fan(order[1..], who, e));
    if order[0] != m {
      FanVotes(m, order[1..], who, t);
    }
  }

  lemma {:induction false} FollowersUpdate(m: Addr, order: seq<Addr>, nodes: map<Addr, Node>, a: Addr, n: Node)
    requires forall i, j :: 0 <= i < j < |order| ==> order[i] != order[j]
    requires a in nodes
    ensures Followers(m, order, nodes[a := n])
         == Followers(m, order, nodes)
            + if a in order && a != m
              then (if Follows(m, n) then 1 else 0) - (if Follows(m, nodes[a]) then 1 else 0) else 0
  {
    hide Follows;
    if order == [] {
    } else {
      FollowersUpdate(m, order[1..], nodes, a, n);
      assert order == [order[0]] + order[1..];
    }
  }

  lemma NotAnnouncedFan(m: Addr, order: seq<Addr>, who: Addr, e: Event)
    requires !(e.LeaderAck? && e.addr == m)
    ensures NotAnnounced(m, Fan(order, who, e))
  {
    forall i | 0 <= i < |Fan(order, who, e)|
      ensures !(Fan(order, who, e)[i].event.LeaderAck? && Fan(order, who, e)[i].event.addr == m)
    {
      FanMembers(order, who, e, Fan(order, who, e)[i]);
    }
  }

  lemma NotAnnouncedAlarm(c: Contest, m: Addr, a: Addr, n: Node, x: Addr, t: int)
    requires n.leader.Some?
    ensures NotAnnounced(m, Alarm(c, a, n, x, t))
  {
    hide Fan;
    NotAnnouncedFan(m, c.order, a, Event.LeaderSwitchPriority(x, t));
    NotAnnouncedFan(m, c.order, a, Event.LeaderSwitchPriority(LeaderAddr(n), LeaderTs(n)));
  }

  /** A host other than `m` that comes to follow `m` by a switch votes for it, and never announces it. */
  lemma VoterVotes(c: Contest, m: Addr, a: Addr, n: Node, v: Envelope)
    requires ValidContest(c) && IsEarliest(c, m) && a in c.ts && a != m && Contestant(c, a, n)
    requires Proper(c, v) && v.to == a && !(v.event.LeaderAck? && v.event.addr == m)
    ensures var r := Step(n, v.event);
            var sent := RouteAll(c.order, a, v.from, v.event, r.out);
            && NotAnnounced(m, sent)
            && (Follows(m, r.node) && !Follows(m, n) ==> VotesInFlight(m, sent) >= 1)
  {
    hide Step, RouteAll, Fan, Alarm, VotesInFlight;
    match v.event {
      case LeaderReq(x, t) =>
        OnReq(c, a, n, v.from, x, t);
        NotAnnouncedAlarm(c, m, a, n, x, t);
      case LeaderReqAck(x, t) =>
        OnReqAck(c, a, n, v.from, x, t);
        NotAnnouncedAlarm(c, m, a, n, x, t);
        NotAnnouncedFan(m, c.order, a, Event.LeaderAck(a, c.ts[a]));
      case LeaderSwitchPriority(x, t) =>
        OnPriority(c, a, n, v.from, x, t);
        NotAnnouncedFan(m, c.order, a, Event.LeaderReqAck(x, t));
        if Yields(n, v.event) && x == m { FanVotes(m, c.order, a, t); }
      case LeaderAck(x, t) => OnAck(c, a, n, v.from, x, t);
    }
  }

  /** What `m` itself does with a delivery, as far as the count is concerned. */
  lemma EarliestCounts(c: Contest, m: Addr, n: Node, v: Envelope)
    requires ValidContest(c) && IsEarliest(c, m) && Contestant(c, m, n) && Proper(c, v) && v.to == m
    ensures var r := Step(n, v.event);
            Follows(m, r.node) && r.node.state != QuorumState.Leader ==>
              && Follows(m, n) && n.state != QuorumState.Leader
              && NotAnnounced(m, RouteAll(c.order, m, v.from, v.event, r.out))
              && r.node.acks == n.acks + (if VoteFor(m, v) then 1 else 0)
              && (VoteFor(m, v) ==> r.node.acks < |c.order| / 2)
  {
    hide Step, RouteAll, Fan, Alarm;
    match v.event {
      case LeaderReq(x, t) =>
        OnReq(c, m, n, v.from, x, t);
        NotAnnouncedAlarm(c, m, m, n, x, t);
      case LeaderReqAck(x, t) =>
        OnReqAck(c, m, n, v.from, x, t);
        NotAnnouncedAlarm(c, m, m, n, x, t);
      case LeaderSwitchPriority(x, t) => OnPriority(c, m, n, v.from, x, t);
      case LeaderAck(x, t) => OnAck(c, m, n, v.from, x, t);
    }
  }

  lemma NotAnnouncedParts(m: Addr, a: seq<Envelope>, i: nat, b: seq<Envelope>)
    requires NotAnnounced(m, a) && i < |a| && NotAnnounced(m, b)
    ensures NotAnnounced(m, Without(a, i) + b)
  { }

  lemma DeliverVotesAddUp(c: Contest, m: Addr, w: World, i: nat)
    requires RaceInv(c, w) && IsEarliest(c, m) && VotesAddUp(c, m, w) && i < |w.flight|
    ensures VotesAddUp(c, m, Deliver(c, w, i))
  {
    hide Step, RouteAll, Contestant, Proper, NotAnnounced, VotesInFlight, Followers, Follows, Without;
    var v := w.flight[i];
    ProperTo(c, v);
    var a, n := v.to, w.nodes[v.to];
    var r := Step(n, v.event);
    var sent := RouteAll(c.order, a, v.from, v.event, r.out);
    var w' := Deliver(c, w, i);
    if Follows(m, w'.nodes[m]) && w'.nodes[m].state != QuorumState.Leader {
      if a == m { EarliestCounts(c, m, n, v); }
      assert Follows(m, w.nodes[m]) && w.nodes[m].state != QuorumState.Leader;
      AnnouncedIsLeader(m, w.flight, i);
      if a != m { VoterVotes(c, m, a, n, v); }
      NotAnnouncedParts(m, w.flight, i, sent);
      VotesWithout(m, w.flight, i);
      VotesConcat(m, Without(w.flight, i), sent);
      FollowersUpdate(m, c.order, w.nodes, a, r.node);
    }
  }

  lemma AnnouncedIsLeader(m: Addr, flight: seq<Envelope>, i: nat)
    requires NotAnnounced(m, flight) && i < |flight|
    ensures !(flight[i].event.LeaderAck? && flight[i].event.addr == m)
  { }

  // ----- the election

  /** Only announcements of losers are still in flight. */
  ghost predicate Quiet(m: Addr, w: World) {
    forall i :: 0 <= i < |w.flight| ==> LoserAck(m, w.flight[i])
  }

  /** `m` leads with its own timestamp, everybody else is its follower; so there is one leader. */
  ghost predicate Elected(c: Contest, m: Addr, w: World)
    requires w.nodes.Keys == c.ts.Keys && m in c.ts
  {
    forall a :: a in c.ts ==>
      var n := w.nodes[a];
      if a == m then n.state == QuorumState.Leader && n.leader == Some(Local(c.ts[m]))
      else n.state == Follower && n.leader.Some? && n.leader.value.Remote?
           && n.leader.value.server.address == m && n.leader.value.server.electionTs == c.ts[m]
  }

  lemma {:induction false} AllFollow(m: Addr, order: seq<Addr>, nodes: map<Addr, Node>)
    requires forall a :: a in order ==> a in nodes && Follows(m, nodes[a])
    requires forall i, j :: 0 <= i < j < |order| ==> order[i] != order[j]
    ensures Followers(m, order, nodes) == |order| - if m in order then 1 else 0
  {
    hide Follows;
    if order == [] {
    } else {
      assert order == [order[0]] + order[1..];
      AllFollow(m, order[1..], nodes);
    }
  }

  lemma {:induction false} QuietHasNoVotes(m: Addr, flight: seq<Envelope>)
    requires forall i :: 0 <= i < |flight| ==> LoserAck(m, flight[i])
    ensures VotesInFlight(m, flight) == 0
  {
    if flight == [] {
    } else {
      QuietHasNoVotes(m, flight[1..]);
    }
  }

  lemma QuietIsElected(c: Contest, m: Addr, w: World)
    requires RaceInv(c, w) && IsEarliest(c, m) && AllCarried(c, m, w) && VotesAddUp(c, m, w) && Quiet(m, w)
    ensures Elected(c, m, w)
  {
    forall a | a in c.ts ensures Follows(m, w.nodes[a]) {
      assert Carried(m, a, w);
    }
    AllFollow(m, c.order, w.nodes);
    QuietHasNoVotes(m, w.flight);
    assert Contestant(c, m, w.nodes[m]);
  }

  /** No delivery of the schedule is harmful. */
  ghost predicate Harmless(c: Contest, m: Addr, w: World, picks: seq<nat>)
    requires ValidSchedule(c, w, picks)
    decreases |picks|
  {
    picks == [] || (!Harmful(m, w, picks[0]) && Harmless(c, m, Deliver(c, w, picks[0]), picks[1..]))
  }

  lemma {:induction false} HarmlessKeepsAll(c: Contest, m: Addr, w: World, picks: seq<nat>)
    requires RaceInv(c, w) && IsEarliest(c, m) && AllCarried(c, m, w) && VotesAddUp(c, m, w)
    requires ValidSchedule(c, w, picks) && Harmless(c, m, w, picks)
    ensures var w' := Play(c, w, picks); RaceInv(c, w') && AllCarried(c, m, w') && VotesAddUp(c, m, w')
    decreases |picks|
  {
    hide Step, RouteAll, RaceInv, AllCarried, VotesAddUp, Harmful;
    if picks == [] {
    } else {
      var next := Deliver(c, w, picks[0]);
      SameHosts(c, w);
      OnlyHarmLosesAHost(c, m, w, picks[0]);
      DeliverVotesAddUp(c, m, w, picks[0]);
      SameHosts(c, next);
      HarmlessKeepsAll(c, m, next, picks[1..]);
      SameHosts(c, Play(c, w, picks));
    }
  }

  lemma SameHosts(c: Contest, w: World)
    requires RaceInv(c, w)
    ensures w.nodes.Keys == c.ts.Keys
  { }

  lemma StartIsCarried(c: Contest, m: Addr, w: World)
    requires AllStand(c, w) && IsEarliest(c, m)
    ensures RaceInv(c, w) && AllCarried(c, m, w) && VotesAddUp(c, m, w)
  {
    StartIsRace(c, w);
    forall j | j in c.ts ensures Carried(m, j, w) {
      if j != m {
        var v := Envelope(m, j, Event.LeaderReq(m, c.ts[m]));
        assert v in w.flight && Carries(m, j, v);
      }
    }
    NoFollowersYet(c, m, c.order, w.nodes);
  }

  lemma {:induction false} NoFollowersYet(c: Contest, m: Addr, order: seq<Addr>, nodes: map<Addr, Node>)
    requires forall a :: a in order && a in nodes ==>
               nodes[a].leader.Some? && nodes[a].leader.value.Local? && nodes[a].cfg.whoami == a
    ensures Followers(m, order, nodes) == 0
  {
    if order == [] {
    } else {
      assert order == [order[0]] + order[1..];
      NoFollowersYet(c, m, order[1..], nodes);
    }
  }

  /** The schedule delivers no announcement of a loser. */
  ghost predicate NoLoserDelivered(c: Contest, m: Addr, w: World, picks: seq<nat>)
    requires ValidSchedule(c, w, picks)
    decreases |picks|
  {
    picks == [] ||
    (!LoserAck(m, w.flight[picks[0]]) && NoLoserDelivered(c, m, Deliver(c, w, picks[0]), picks[1..]))
  }

  lemma {:induction false} NoLoserIsHarmless(c: Contest, m: Addr, w: World, picks: seq<nat>)
    requires ValidSchedule(c, w, picks) && NoLoserDelivered(c, m, w, picks)
    ensures Harmless(c, m, w, picks)
    decreases |picks|
  {
    hide Step, RouteAll;
    if picks == [] {
    } else {
      NoLoserIsHarmless(c, m, Deliver(c, w, picks[0]), picks[1..]);
    }
  }

  /** The earliest candidate wins: when a race without harmful deliveries has only announcements of
      losers left, or nothing at all, the host with the smallest timestamp is the one leader and
      all others follow it. */
  lemma EarliestCandidateWins(c: Contest, m: Addr, w: World, picks: seq<nat>)
    requires AllStand(c, w) && IsEarliest(c, m)
    requires ValidSchedule(c, w, picks) && Harmless(c, m, w, picks) && Quiet(m, Play(c, w, picks))
    ensures Play(c, w, picks).nodes.Keys == c.ts.Keys && Elected(c, m, Play(c, w, picks))
  {
    hide Step, RouteAll, RaceInv, AllStand, AllCarried, VotesAddUp, Quiet, Elected;
    StartIsCarried(c, m, w);
    HarmlessKeepsAll(c, m, w, picks);
    SameHosts(c, Play(c, w, picks));
    QuietIsElected(c, m, Play(c, w, picks));
  }

  // ----- who is the earliest

  ghost predicate DistinctTimes(c: Contest) {
    forall a, b :: a in c.ts && b in c.ts && a != b ==> c.ts[a] != c.ts[b]
  }

  /** The earliest of a non-empty set of hosts. */
  lemma {:induction false} EarliestOf(c: Contest, s: set<Addr>) returns (b: Addr)
    requires s != {} && (forall a :: a in s ==> a in c.ts)
    ensures b in s && forall a :: a in s ==> c.ts[b] <= c.ts[a]
    decreases |s|
  {
    var x :| x in s;
    b := x;
    if s != {x} {
      var y := EarliestOf(c, s - {x});
      if c.ts[y] < c.ts[x] { b := y; }
    }
  }

  /** `order` without `a`. */
  function Minus(order: seq<Addr>, a: Addr): seq<Addr> {
    if order == [] then [] else (if order[0] == a then [] else [order[0]]) + Minus(order[1..], a)
  }

  lemma {:induction false} MinusKeeps(order: seq<Addr>, a: Addr)
    requires forall i, j :: 0 <= i < j < |order| ==> order[i] != order[j]
    ensures var r := Minus(order, a);
            && |r| >= |order| - 1 && (a !in order ==> |r| == |order|)
            && (forall x :: x in r <==> x in order && x != a)
            && (forall i, j :: 0 <= i < j < |r| ==> r[i] != r[j])
  {
    if order == [] {
    } else {
      var rest := Minus(order[1..], a);
      MinusKeeps(order[1..], a);
      assert order == [order[0]] + order[1..];
      forall j | 0 <= j < |rest| ensures rest[j] != order[0] {
        assert rest[j] in rest && order[0] !in order[1..];
      }
    }
  }
}
