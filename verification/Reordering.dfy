/** Why the order on each connection matters. If messages of one connection could overtake each other, only races
    of two hosts would be sure to elect the earliest candidate; Leaderless.dfy shows that it is four. */
module Reordering {
  import opened Types
  import opened QuorumStep
  import opened Wire
  import opened Race
  import opened Cascade
  import opened Earliest

  // ----- composing schedules

  lemma {:induction false} PlayOn(c: Contest, w: World, p: seq<nat>, q: seq<nat>)
    requires ValidSchedule(c, w, p) && ValidSchedule(c, Play(c, w, p), q)
    ensures ValidSchedule(c, w, p + q) && Play(c, w, p + q) == Play(c, Play(c, w, p), q)
    decreases |p|
  {
    hide Step, RouteAll;
    if p == [] {
      assert p + q == q;
    } else {
      assert (p + q)[0] == p[0] && (p + q)[1..] == p[1..] + q;
      PlayOn(c, Deliver(c, w, p[0]), p[1..], q);
    }
  }

  /** Delivers the envelope `v` next. */
  lemma DeliverNext(c: Contest, w: World, v: Envelope) returns (i: nat)
    requires RaceInv(c, w) && v in w.flight
    ensures i < |w.flight| && w.flight[i] == v && v.to in c.ts && v.to in w.nodes && Proper(c, v)
    ensures ValidSchedule(c, w, [i]) && Play(c, w, [i]) == Deliver(c, w, i)
    ensures forall u :: u in w.flight && u != v ==> u in Deliver(c, w, i).flight
    ensures forall u :: u in RouteAll(c.order, v.to, v.from, v.event, Step(w.nodes[v.to], v.event).out) ==>
              u in Deliver(c, w, i).flight
  {
    hide Step, RouteAll, Contestant;
    i :| 0 <= i < |w.flight| && w.flight[i] == v;
    ProperTo(c, v);
    forall u | u in w.flight && u != v ensures u in Deliver(c, w, i).flight {
      var k :| 0 <= k < |w.flight| && w.flight[k] == u;
      assert Without(w.flight, i)[if k < i then k else k - 1] == u;
      assert u in Without(w.flight, i);
    }
    assert [i][1..] == [];
  }

  /** What stays true of the earliest candidate through every delivery but another's announcement. */
  ghost predicate OnTrack(c: Contest, m: Addr, w: World) {
    && RaceInv(c, w) && IsEarliest(c, m)
    && w.nodes.Keys == c.ts.Keys && AllCarried(c, m, w) && VotesAddUp(c, m, w)
  }

  lemma StaysOnTrack(c: Contest, m: Addr, w: World, i: nat)
    requires OnTrack(c, m, w) && i < |w.flight| && !LoserAck(m, w.flight[i])
    ensures w.flight[i].to in w.nodes && OnTrack(c, m, Deliver(c, w, i))
    ensures !Harmful(m, w, i)
  {
    hide Step, RouteAll, RaceInv, AllCarried, VotesAddUp;
    RaceTo(c, w, i);
    OnlyHarmLosesAHost(c, m, w, i);
    DeliverVotesAddUp(c, m, w, i);
    SameHosts(c, Deliver(c, w, i));
  }

  lemma RaceTo(c: Contest, w: World, i: nat)
    requires RaceInv(c, w) && i < |w.flight|
    ensures w.flight[i].to in w.nodes
  { }

  // ----- a network that may reorder can deliver everything but the announcements of losers

  /** Delivers everything but the announcements of losers. */
  lemma {:induction false} DeliverAllElse(c: Contest, m: Addr, w: World) returns (picks: seq<nat>)
    requires OnTrack(c, m, w)
    ensures ValidSchedule(c, w, picks) && Harmless(c, m, w, picks)
    ensures var w' := Play(c, w, picks); OnTrack(c, m, w') && Quiet(m, w')
    ensures forall u :: u in w.flight && LoserAck(m, u) ==> u in Play(c, w, picks).flight
    decreases Potential(c, w)
  {
    hide Step, RouteAll, OnTrack, LoserAck, Harmful, Potential;
    if Quiet(m, w) {
      picks := [];
    } else {
      var i :| 0 <= i < |w.flight| && !LoserAck(m, w.flight[i]);
      TrackIsRace(c, m, w);
      var j := DeliverNext(c, w, w.flight[i]);
      StaysOnTrack(c, m, w, j);
      DeliverIsLighter(c, w, j);
      var rest := DeliverAllElse(c, m, Deliver(c, w, j));
      picks := [j] + rest;
      assert picks[1..] == rest;
    }
  }

  lemma TrackIsRace(c: Contest, m: Addr, w: World)
    requires OnTrack(c, m, w)
    ensures RaceInv(c, w) && w.nodes.Keys == c.ts.Keys && m in c.ts
  { }

  lemma QuietTrackIsElected(c: Contest, m: Addr, w: World)
    requires OnTrack(c, m, w) && Quiet(m, w)
    ensures w.nodes.Keys == c.ts.Keys && m in c.ts && Elected(c, m, w)
  {
    hide RaceInv, AllCarried, VotesAddUp, Quiet, Elected;
    QuietIsElected(c, m, w);
  }

  lemma StartOnTrack(c: Contest, m: Addr, w: World)
    requires AllStand(c, w) && IsEarliest(c, m)
    ensures OnTrack(c, m, w)
  {
    hide RaceInv, AllCarried, VotesAddUp, AllStand;
    StartIsCarried(c, m, w);
    SameHosts(c, w);
  }

  // ----- from three hosts on, a race may end without a leader

  /** Still standing, with its own timestamp. */
  ghost predicate Stands(c: Contest, x: Addr, n: Node) {
    x in c.ts && n.leader == Some(Local(c.ts[x])) && n.state == LeadershipRequested(c.ts[x])
  }

  /** One host that stands later hears of `b`, gives way and votes; the vote is on the way back. */
  lemma WinVote(c: Contest, m: Addr, b: Addr, x: Addr, w: World) returns (picks: seq<nat>)
    requires OnTrack(c, m, w) && b in c.ts && x in c.ts && b != x && c.ts[b] < c.ts[x]
    requires Stands(c, x, w.nodes[x]) && Envelope(b, x, Event.LeaderReq(b, c.ts[b])) in w.flight
    ensures ValidSchedule(c, w, picks)
    ensures var w' := Play(c, w, picks);
            && OnTrack(c, m, w') && Envelope(x, b, Event.LeaderReqAck(b, c.ts[b])) in w'.flight
            && (forall y :: y in c.ts && y != x ==> w'.nodes[y] == w.nodes[y])
            && (forall u :: u in w.flight && u.to != x ==> u in w'.flight)
  {
    hide Step, RouteAll, Fan, OnTrack, RaceInv;
    TrackIsRace(c, m, w);
    var t := c.ts[b];
    var req := Envelope(b, x, Event.LeaderReq(b, t));
    var switch := Envelope(x, x, Event.LeaderSwitchPriority(b, t));
    var vote := Envelope(x, b, Event.LeaderReqAck(b, t));
    IsContestant(c, x, w);
    OnReq(c, x, w.nodes[x], b, b, t);
    var i := DeliverNext(c, w, req);
    StaysOnTrack(c, m, w, i);
    var w1 := Deliver(c, w, i);
    assert Alarm(c, x, w.nodes[x], b, t)[0] == switch;
    assert switch in Alarm(c, x, w.nodes[x], b, t);

    TrackIsRace(c, m, w1);
    IsContestant(c, x, w1);
    OnPriority(c, x, w1.nodes[x], x, b, t);
    FanMembers(c.order, x, Event.LeaderReqAck(b, t), vote);
    InOrder(c, w, b);
    var j := DeliverNext(c, w1, switch);
    StaysOnTrack(c, m, w1, j);
    PlayOn(c, w, [i], [j]);
    picks := [i] + [j];
  }

  lemma IsContestant(c: Contest, a: Addr, w: World)
    requires RaceInv(c, w) && a in c.ts
    ensures a in w.nodes && Contestant(c, a, w.nodes[a]) && ValidContest(c)
  { }

  lemma InOrder(c: Contest, w: World, a: Addr)
    requires RaceInv(c, w) && a in c.ts
    ensures a in c.order
  { }

  /** The vote reaches `b`: it counts it and, with a quorum, announces itself to `m`. */
  lemma TakeVote(c: Contest, m: Addr, b: Addr, x: Addr, w: World) returns (picks: seq<nat>)
    requires OnTrack(c, m, w) && b in c.ts && m != b
    requires Stands(c, b, w.nodes[b]) && Envelope(x, b, Event.LeaderReqAck(b, c.ts[b])) in w.flight
    ensures ValidSchedule(c, w, picks)
    ensures var w' := Play(c, w, picks);
            && OnTrack(c, m, w')
            && (forall y :: y in c.ts && y != b ==> w'.nodes[y] == w.nodes[y])
            && (forall u :: u in w.flight && u.to != b ==> u in w'.flight)
            && (if w.nodes[b].acks + 1 >= |c.order| / 2 then Envelope(b, m, Event.LeaderAck(b, c.ts[b])) in w'.flight
                else Stands(c, b, w'.nodes[b]) && w'.nodes[b].acks == w.nodes[b].acks + 1)
  {
    hide Step, RouteAll, Fan, Alarm, OnTrack, RaceInv;
    TrackIsRace(c, m, w);
    var t := c.ts[b];
    var vote, news := Envelope(x, b, Event.LeaderReqAck(b, t)), Envelope(b, m, Event.LeaderAck(b, t));
    IsContestant(c, b, w);
    OnReqAck(c, b, w.nodes[b], x, b, t);
    var i := DeliverNext(c, w, vote);
    StaysOnTrack(c, m, w, i);
    FanMembers(c.order, b, Event.LeaderAck(b, t), news);
    InOrder(c, w, m);
    picks := [i];
  }

  /** `x` still stands, later than `b`, and the request of `b` is on the way to it. */
  ghost predicate Ready(c: Contest, b: Addr, x: Addr, w: World) {
    && x in c.ts && b in c.ts && x != b && c.ts[b] < c.ts[x]
    && x in w.nodes && Stands(c, x, w.nodes[x]) && Envelope(b, x, Event.LeaderReq(b, c.ts[b])) in w.flight
  }

  /** One more vote for `b`: it announces itself to `m`, or goes on with the others untouched. */
  lemma WinAndTakeVote(c: Contest, m: Addr, b: Addr, x: Addr, w: World) returns (picks: seq<nat>)
    requires OnTrack(c, m, w) && b in c.ts && m != b && Stands(c, b, w.nodes[b]) && Ready(c, b, x, w)
    ensures ValidSchedule(c, w, picks)
    ensures var w' := Play(c, w, picks);
            && OnTrack(c, m, w')
            && (forall y :: y != x && Ready(c, b, y, w) ==> Ready(c, b, y, w'))
            && (if w.nodes[b].acks + 1 >= |c.order| / 2 then Envelope(b, m, Event.LeaderAck(b, c.ts[b])) in w'.flight
                else Stands(c, b, w'.nodes[b]) && w'.nodes[b].acks == w.nodes[b].acks + 1)
  {
    hide Step, RouteAll, OnTrack, Stands;
    var p := WinVote(c, m, b, x, w);
    var w1 := Play(c, w, p);
    TrackIsRace(c, m, w);
    TrackIsRace(c, m, w1);
    var q := TakeVote(c, m, b, x, w1);
    TrackIsRace(c, m, Play(c, w1, q));
    PlayOn(c, w, p, q);
    picks := p + q;
  }

  ghost predicate AllReady(c: Contest, b: Addr, xs: seq<Addr>, w: World) {
    && (forall i :: 0 <= i < |xs| ==> Ready(c, b, xs[i], w))
    && (forall i, j :: 0 <= i < j < |xs| ==> xs[i] != xs[j])
  }

  lemma RestReady(c: Contest, b: Addr, xs: seq<Addr>, w: World, w': World)
    requires xs != [] && AllReady(c, b, xs, w)
    requires forall y :: y != xs[0] && Ready(c, b, y, w) ==> Ready(c, b, y, w')
    ensures Ready(c, b, xs[0], w) && AllReady(c, b, xs[1..], w')
  {
    hide Ready;
  }

  /** `b` collects the votes of `xs`, one by one, until it has a quorum. */
  lemma {:induction false} Campaign(c: Contest, m: Addr, b: Addr, xs: seq<Addr>, w: World) returns (picks: seq<nat>)
    requires OnTrack(c, m, w) && b in c.ts && m != b && AllReady(c, b, xs, w)
    requires Stands(c, b, w.nodes[b]) && w.nodes[b].acks < |c.order| / 2 <= w.nodes[b].acks + |xs|
    ensures ValidSchedule(c, w, picks)
    ensures var w' := Play(c, w, picks);
            OnTrack(c, m, w') && Envelope(b, m, Event.LeaderAck(b, c.ts[b])) in w'.flight
    decreases |xs|
  {
    hide Step, RouteAll, OnTrack, Stands, Ready, AllReady;
    RestReady(c, b, xs, w, w);
    TrackIsRace(c, m, w);
    picks := WinAndTakeVote(c, m, b, xs[0], w);
    var w1 := Play(c, w, picks);
    TrackIsRace(c, m, w1);
    if w.nodes[b].acks + 1 < |c.order| / 2 {
      RestReady(c, b, xs, w, w1);
      var rest := Campaign(c, m, b, xs[1..], w1);
      PlayOn(c, w, picks, rest);
      picks := picks + rest;
    }
  }

  /** Everybody follows somebody, and only announcements are left. */
  ghost predicate NobodyLeads(c: Contest, w: World) {
    && RaceInv(c, w)
    && w.nodes.Keys == c.ts.Keys
    && (forall a :: a in c.ts ==> w.nodes[a].state == Follower)
    && (forall i :: 0 <= i < |w.flight| ==> w.flight[i].event.LeaderAck?)
  }

  lemma AnnouncementFollowed(c: Contest, w: World, i: nat)
    requires RaceInv(c, w) && w.nodes.Keys == c.ts.Keys && i < |w.flight|
    requires forall k :: 0 <= k < |w.flight| ==> w.flight[k].event.LeaderAck?
    requires forall a :: a in c.ts && a != w.flight[i].to ==> w.nodes[a].state == Follower
    ensures w.flight[i].to in w.nodes && NobodyLeads(c, Deliver(c, w, i))
    ensures |Deliver(c, w, i).flight| == |w.flight| - 1
  {
    hide Step, RouteAll, Contestant, Proper;
    var v := w.flight[i];
    ProperTo(c, v);
    BecomesFollower(c, v.to, w.nodes[v.to], v);
    DeliverKeepsInv(c, w, i);
  }

  lemma BecomesFollower(c: Contest, a: Addr, n: Node, v: Envelope)
    requires ValidContest(c) && a in c.ts && Contestant(c, a, n) && Proper(c, v) && v.to == a && v.event.LeaderAck?
    ensures var r := Step(n, v.event);
            r.node.state == Follower && RouteAll(c.order, a, v.from, v.event, r.out) == []
  {
    hide Step, RouteAll;
    OnAck(c, a, n, v.from, v.event.addr, v.event.ts);
  }

  lemma {:induction false} DeliverAnnouncements(c: Contest, w: World) returns (picks: seq<nat>)
    requires NobodyLeads(c, w)
    ensures ValidSchedule(c, w, picks)
    ensures NobodyLeads(c, Play(c, w, picks)) && Play(c, w, picks).flight == []
    decreases |w.flight|
  {
    hide Step, RouteAll, RaceInv;
    if w.flight == [] {
      picks := [];
    } else {
      AnnouncementFollowed(c, w, 0);
      var rest := DeliverAnnouncements(c, Deliver(c, w, 0));
      picks := [0] + rest;
      assert picks[1..] == rest;
    }
  }

  /** With the announcement of `b` to `m` in flight, the race can end with everybody following. */
  lemma LateAnnouncement(c: Contest, m: Addr, b: Addr, w: World) returns (picks: seq<nat>)
    requires OnTrack(c, m, w) && b in c.ts && m != b && Envelope(b, m, Event.LeaderAck(b, c.ts[b])) in w.flight
    ensures ValidSchedule(c, w, picks)
    ensures NobodyLeads(c, Play(c, w, picks)) && Play(c, w, picks).flight == []
  {
    hide Step, RouteAll, OnTrack, RaceInv;
    var news := Envelope(b, m, Event.LeaderAck(b, c.ts[b]));
    assert LoserAck(m, news);
    var p := DeliverAllElse(c, m, w);
    var w1 := Play(c, w, p);
    QuietTrackIsElected(c, m, w1);
    TrackIsRace(c, m, w1);
    var i := DeliverNext(c, w1, news);
    AnnouncementFollowed(c, w1, i);
    var q := DeliverAnnouncements(c, Deliver(c, w1, i));
    PlayOn(c, w, p, [i]);
    PlayOn(c, w, p + [i], q);
    picks := p + [i] + q;
  }

  // ----- the exact condition

  /** The two earliest of at least three hosts, and the others. */
  lemma TwoEarliest(c: Contest) returns (m: Addr, b: Addr, xs: seq<Addr>)
    requires ValidContest(c) && DistinctTimes(c) && |c.order| >= 3
    ensures IsEarliest(c, m) && b in c.ts && b != m && |xs| >= |c.order| - 2
    ensures forall i :: 0 <= i < |xs| ==> xs[i] in c.ts && xs[i] != b && c.ts[b] < c.ts[xs[i]]
    ensures forall i, j :: 0 <= i < j < |xs| ==> xs[i] != xs[j]
  {
    assert c.order[0] in c.ts.Keys && c.order[1] in c.ts.Keys && c.order[0] != c.order[1];
    m := EarliestOf(c, c.ts.Keys);
    assert (if c.order[0] == m then c.order[1] else c.order[0]) in c.ts.Keys - {m};
    b := EarliestOf(c, c.ts.Keys - {m});
    MinusKeeps(c.order, m);
    MinusKeeps(Minus(c.order, m), b);
    xs := Minus(Minus(c.order, m), b);
    forall i | 0 <= i < |xs| ensures xs[i] in c.ts && xs[i] != b && c.ts[b] < c.ts[xs[i]] {
      assert xs[i] in xs;
    }
  }

  lemma ReadyAtStart(c: Contest, b: Addr, x: Addr, w: World)
    requires AllStand(c, w) && b in c.ts && x in c.ts && x != b && c.ts[b] < c.ts[x]
    ensures Ready(c, b, x, w) && b in w.nodes && Stands(c, b, w.nodes[b]) && w.nodes[b].acks == 0
    ensures ValidContest(c)
  {
    hide Connected, Proper;
  }

  /** In any cluster of at least three hosts, for any distinct timestamps, a network that reorders can deliver the
      messages of a race such that in the end nothing is in flight and everybody is a follower. */
  lemma ReorderedRaceWithoutLeader(c: Contest, w: World) returns (picks: seq<nat>)
    requires AllStand(c, w) && DistinctTimes(c) && |c.order| >= 3
    ensures ValidSchedule(c, w, picks)
    ensures var w' := Play(c, w, picks);
            w'.flight == [] && w'.nodes.Keys == c.ts.Keys && forall a :: a in c.ts ==> w'.nodes[a].state == Follower
  {
    hide Step, RouteAll, OnTrack, AllStand, Ready, Stands, NobodyLeads;
    ContestIsValid(c, w);
    var m, b, xs := TwoEarliest(c);
    forall i | 0 <= i < |xs| ensures Ready(c, b, xs[i], w) {
      ReadyAtStart(c, b, xs[i], w);
    }
    assert AllReady(c, b, xs, w);
    ReadyAtStart(c, b, xs[0], w);
    StartOnTrack(c, m, w);
    var p := Campaign(c, m, b, xs, w);
    var q := LateAnnouncement(c, m, b, Play(c, w, p));
    PlayOn(c, w, p, q);
    picks := p + q;
    AllFollowers(c, Play(c, w, picks));
  }

  lemma ContestIsValid(c: Contest, w: World)
    requires AllStand(c, w)
    ensures ValidContest(c)
  { }

  lemma AllFollowers(c: Contest, w: World)
    requires NobodyLeads(c, w)
    ensures w.nodes.Keys == c.ts.Keys && forall a :: a in c.ts ==> w.nodes[a].state == Follower
  { }

  /** In a race of two the later candidate never gets a vote. */
  ghost predicate OnlyEarliestActs(c: Contest, m: Addr, w: World) {
    && RaceInv(c, w) && w.nodes.Keys == c.ts.Keys && IsEarliest(c, m)
    && (forall i :: 0 <= i < |w.flight| ==>
          (w.flight[i].event.LeaderReqAck? || w.flight[i].event.LeaderAck?) ==> w.flight[i].event.addr == m)
    && Follows(m, w.nodes[m])
  }

  lemma TwoTake(c: Contest, m: Addr, a: Addr, n: Node, v: Envelope, u: Envelope)
    requires ValidContest(c) && |c.order| == 2 && IsEarliest(c, m) && a in c.ts && Contestant(c, a, n)
    requires Proper(c, v) && v.to == a
    requires (v.event.LeaderReqAck? || v.event.LeaderAck?) ==> v.event.addr == m
    requires a == m ==> Follows(m, n)
    requires u in RouteAll(c.order, a, v.from, v.event, Step(n, v.event).out)
    ensures (u.event.LeaderReqAck? || u.event.LeaderAck?) ==> u.event.addr == m
  {
    hide Step, RouteAll, Fan;
    match v.event {
      case LeaderReq(x, t) =>
        OnReq(c, a, n, v.from, x, t);
        AlarmIsPriority(c, a, n, x, t, u);
      case LeaderReqAck(x, t) =>
        OnReqAck(c, a, n, v.from, x, t);
        if u in Alarm(c, a, n, x, t) { AlarmIsPriority(c, a, n, x, t, u); }
        else { FanMembers(c.order, a, Event.LeaderAck(a, c.ts[a]), u); }
      case LeaderSwitchPriority(x, t) =>
        OnPriority(c, a, n, v.from, x, t);
        FanMembers(c.order, a, Event.LeaderReqAck(x, t), u);
        OnlyTwo(c, m, a, x);
      case LeaderAck(x, t) => OnAck(c, a, n, v.from, x, t);
    }
  }

  lemma OnlyTwo(c: Contest, m: Addr, a: Addr, x: Addr)
    requires ValidContest(c) && |c.order| == 2 && m in c.ts && a in c.ts && x in c.ts
    ensures x == m || x == a || a == m
  {
    assert c.order == [c.order[0], c.order[1]];
  }

  lemma AlarmIsPriority(c: Contest, a: Addr, n: Node, x: Addr, t: int, u: Envelope)
    requires n.leader.Some? && u in Alarm(c, a, n, x, t)
    ensures u.event.LeaderSwitchPriority?
  {
    FanMembers(c.order, a, Event.LeaderSwitchPriority(x, t), u);
    FanMembers(c.order, a, Event.LeaderSwitchPriority(LeaderAddr(n), LeaderTs(n)), u);
  }

  lemma TwoDeliver(c: Contest, m: Addr, w: World, i: nat)
    requires OnlyEarliestActs(c, m, w) && |c.order| == 2 && i < |w.flight|
    ensures w.flight[i].to in w.nodes && !Harmful(m, w, i) && OnlyEarliestActs(c, m, Deliver(c, w, i))
  {
    hide Step, RouteAll, Contestant, Proper, Follows;
    var v := w.flight[i];
    ProperTo(c, v);
    var sent := RouteAll(c.order, v.to, v.from, v.event, Step(w.nodes[v.to], v.event).out);
    DeliverKeepsInv(c, w, i);
    if v.to == m { StaysWithEarliest(c, m, m, w.nodes[m], v); }
    forall u | u in sent ensures (u.event.LeaderReqAck? || u.event.LeaderAck?) ==> u.event.addr == m {
      TwoTake(c, m, v.to, w.nodes[v.to], v, u);
    }
    var w' := Deliver(c, w, i);
    forall j | 0 <= j < |w'.flight|
      ensures (w'.flight[j].event.LeaderReqAck? || w'.flight[j].event.LeaderAck?) ==> w'.flight[j].event.addr == m
    {
      if j < |Without(w.flight, i)| {
        assert w'.flight[j] == w.flight[if j < i then j else j + 1];
      } else {
        assert w'.flight[j] in sent;
      }
    }
  }

  lemma TwoStart(c: Contest, m: Addr, w: World)
    requires AllStand(c, w) && IsEarliest(c, m)
    ensures OnlyEarliestActs(c, m, w)
  {
    StartIsRace(c, w);
  }

  lemma {:induction false} TwoHarmless(c: Contest, m: Addr, w: World, picks: seq<nat>)
    requires OnlyEarliestActs(c, m, w) && |c.order| == 2 && ValidSchedule(c, w, picks)
    ensures Harmless(c, m, w, picks)
    decreases |picks|
  {
    hide Step, RouteAll, OnlyEarliestActs, Harmful;
    if picks == [] {
    } else {
      TwoDeliver(c, m, w, picks[0]);
      TwoHarmless(c, m, Deliver(c, w, picks[0]), picks[1..]);
    }
  }

  /** Over a network that reorders, every race that runs until nothing is in flight elects the earliest candidate,
      if and only if just two hosts take part. */
  lemma ReorderedElectsIffTwo(c: Contest, m: Addr, w: World)
    requires AllStand(c, w) && DistinctTimes(c) && IsEarliest(c, m)
    ensures (forall picks :: ValidSchedule(c, w, picks) && Play(c, w, picks).flight == [] ==>
               Play(c, w, picks).nodes.Keys == c.ts.Keys && Elected(c, m, Play(c, w, picks)))
            <==> |c.order| == 2
  {
    hide Step, RouteAll, AllStand;
    ContestIsValid(c, w);
    if |c.order| == 2 {
      TwoStart(c, m, w);
      forall picks | ValidSchedule(c, w, picks) && Play(c, w, picks).flight == []
        ensures Play(c, w, picks).nodes.Keys == c.ts.Keys && Elected(c, m, Play(c, w, picks))
      {
        TwoHarmless(c, m, w, picks);
        EarliestCandidateWins(c, m, w, picks);
      }
    } else {
      var picks := ReorderedRaceWithoutLeader(c, w);
    }
  }
}
