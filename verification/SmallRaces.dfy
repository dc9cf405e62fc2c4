/** Races of up to four hosts always elect the earliest candidate: only the second earliest can collect a
    quorum besides it, and whatever that host announces, it tells everybody of the earliest later on the
    same connections. */
module SmallRaces {
  import opened Types
  import opened QuorumStep
  import opened Wire
  import opened Race
  import opened Cascade
  import opened Earliest
  import opened Queues

  ghost predicate Mentions(s: seq<Event>, m: Addr) {
    exists k :: 0 <= k < |s| && Candidate(s[k]) == Some(m)
  }

  /** A message that names `m` is on the way to `j`. */
  ghost predicate Underway(c: Contest, m: Addr, j: Addr, x: Net) {
    exists u :: u in c.ts && Mentions(Link(x, u, j), m)
  }

  /** Only `m` and `b` announce themselves. */
  ghost predicate OnlyAnnounced(c: Contest, m: Addr, b: Addr, x: Net) {
    forall u, q, e :: u in c.ts && q in c.ts && e in Link(x, u, q) && e.LeaderAck? ==>
      e.addr == u && (u == m || u == b)
  }

  predicate IsSwitchTo(m: Addr, e: Event) {
    e.LeaderSwitchPriority? && e.voteHost == m
  }

  /** Before every announcement comes a switch to `m`. */
  ghost predicate Heralded(s: seq<Event>, m: Addr) {
    forall k :: 0 <= k < |s| && s[k].LeaderAck? ==> exists h :: 0 <= h < k && IsSwitchTo(m, s[h])
  }

  /** Behind every announcement comes a message that names `m`. */
  ghost predicate Backed(s: seq<Event>, m: Addr) {
    forall k :: 0 <= k < |s| && s[k].LeaderAck? ==> Mentions(s[k..][1..], m)
  }

  /** As long as the second earliest stands for itself, it has yet to hear of `m` by something else than an
      announcement. Afterwards it follows `m`, and everybody does or will hear of `m` again. */
  ghost predicate SecondInv(c: Contest, m: Addr, b: Addr, x: Net) {
    if Lead(x, b) == b then Heralded(Link(x, m, b), m) && Underway(c, m, b, x)
    else
      && Lead(x, b) == m
      && forall j :: j in c.ts && j != b ==>
           Backed(Link(x, b, j), m) && (Lead(x, j) == m || Underway(c, m, j, x))
  }

  ghost predicate IsSecond(c: Contest, m: Addr, b: Addr) {
    && IsEarliest(c, m) && b in c.ts && b != m
    && forall a :: a in c.ts && a != m && a != b ==> c.ts[b] < c.ts[a]
  }

  // ----- events on a link

  lemma {:induction false} OnMembers(s: seq<Envelope>, u: Addr, a: Addr, e: Event)
    ensures e in On(s, u, a) <==> Envelope(u, a, e) in s
  {
    if s == [] {
    } else {
      OnMembers(s[1..], u, a, e);
      assert s == [s[0]] + s[1..];
      assert s[0] == Envelope(s[0].from, s[0].to, s[0].event);
    }
  }

  lemma LinkProper(c: Contest, x: Net, u: Addr, a: Addr, e: Event)
    requires NetInv(c, x) && e in Link(x, u, a)
    ensures Proper(c, Envelope(u, a, e)) && u in c.ts && a in c.ts
  {
    hide On, Contestant;
    OnMembers(x.inbox + x.wire, u, a, e);
    assert Envelope(u, a, e) in Bag(x).flight;
  }

  lemma Appended(s: seq<Event>, t: seq<Event>, m: Addr)
    ensures Mentions(s, m) || Mentions(t, m) ==> Mentions(s + t, m)
  {
    if Mentions(s, m) {
      var k :| 0 <= k < |s| && Candidate(s[k]) == Some(m);
      assert (s + t)[k] == s[k];
    }
    if Mentions(t, m) {
      var k :| 0 <= k < |t| && Candidate(t[k]) == Some(m);
      assert (s + t)[|s| + k] == t[k];
    }
  }

  lemma HeraldedGoesOn(s: seq<Event>, t: seq<Event>, m: Addr)
    requires Heralded(s, m) && Heralded(t, m)
    ensures Heralded(s + t, m)
  {
    forall k | 0 <= k < |s + t| && (s + t)[k].LeaderAck? ensures exists h :: 0 <= h < k && IsSwitchTo(m, (s + t)[h]) {
      if k < |s| {
        var h :| 0 <= h < k && IsSwitchTo(m, s[h]);
        assert (s + t)[h] == s[h];
      } else {
        var h :| 0 <= h < k - |s| && IsSwitchTo(m, t[h]);
        assert (s + t)[|s| + h] == t[h];
      }
    }
  }

  lemma HeraldedRest(s: seq<Event>, m: Addr)
    requires Heralded(s, m) && s != [] && !IsSwitchTo(m, s[0])
    ensures !s[0].LeaderAck? && Heralded(Rest(s), m)
  {
    forall k | 0 <= k < |Rest(s)| && Rest(s)[k].LeaderAck? ensures exists h :: 0 <= h < k && IsSwitchTo(m, Rest(s)[h]) {
      assert s[k + 1].LeaderAck?;
      var h :| 0 <= h < k + 1 && IsSwitchTo(m, s[h]);
      assert Rest(s)[h - 1] == s[h];
    }
  }

  lemma BehindInBoth(s: seq<Event>, t: seq<Event>, k: nat)
    requires k < |s|
    ensures (s + t)[k..][1..] == s[k..][1..] + t && (s + t)[k] == s[k]
  { }

  lemma BackedGoesOn(s: seq<Event>, t: seq<Event>, m: Addr)
    requires Backed(s, m)
    requires (forall e :: e in t ==> !e.LeaderAck?)
    ensures Backed(s + t, m)
  {
    hide Mentions;
    forall k | 0 <= k < |s + t| && (s + t)[k].LeaderAck? ensures Mentions((s + t)[k..][1..], m) {
      if k < |s| {
        Appended(s[k..][1..], t, m);
        BehindInBoth(s, t, k);
      }
    }
  }

  lemma BackedRest(s: seq<Event>, m: Addr)
    requires Backed(s, m) && s != []
    ensures Backed(Rest(s), m)
    ensures s[0].LeaderAck? ==> Mentions(Rest(s), m)
  {
    assert s[0..][1..] == Rest(s);
    forall k | 0 <= k < |Rest(s)| && Rest(s)[k].LeaderAck? ensures Mentions(Rest(s)[k..][1..], m) {
      assert s[k + 1].LeaderAck?;
      assert Rest(s)[k..][1..] == s[k + 1..][1..];
    }
  }

  lemma AllBacked(s: seq<Event>, t: seq<Event>, m: Addr)
    requires Mentions(t, m) && (forall e :: e in t ==> !e.LeaderAck?)
    ensures Backed(s + t, m)
  {
    hide Mentions;
    forall k | 0 <= k < |s + t| && (s + t)[k].LeaderAck? ensures Mentions((s + t)[k..][1..], m) {
      if k < |s| {
        Appended(s[k..][1..], t, m);
        BehindInBoth(s, t, k);
      }
    }
  }

  /** What is not next on its connection stays underway. */
  lemma StaysUnderway(c: Contest, m: Addr, x: Net, y: Net, u: Addr, a: Addr, e: Event, j: Addr)
    requires Handled(c, x, y, u, a, e) && j in c.ts && Underway(c, m, j, x)
    requires j == a ==> Candidate(e) != Some(m)
    ensures Underway(c, m, j, y)
  {
    hide Respond, Link;
    var v :| v in c.ts && Mentions(Link(x, v, j), m);
    var s := Link(x, v, j);
    if v == u && j == a {
      var k :| 0 <= k < |s| && Candidate(s[k]) == Some(m);
      assert Rest(s)[k - 1] == s[k];
      assert Mentions(Rest(s), m);
    }
    var r := Respond(c, a, Lead(x, a), Acks(x, a), e);
    Appended(if v == u && j == a then Rest(s) else s, if v != a then [] else if j == a then r.own else r.out, m);
  }

  /** A message that names `m` leads its receiver to `m`, or to send itself another one. */
  lemma HearsOf(c: Contest, m: Addr, x: Net, y: Net, u: Addr, a: Addr, e: Event)
    requires ValidContest(c) && IsEarliest(c, m) && Handled(c, x, y, u, a, e) && Proper(c, Envelope(u, a, e))
    requires Candidate(e) == Some(m)
    ensures Lead(y, a) == m || Underway(c, m, a, y)
  {
    hide Link;
    var r := Respond(c, a, Lead(x, a), Acks(x, a), e);
    if Lead(y, a) != m {
      assert r.own == [Event.LeaderSwitchPriority(m, c.ts[m])];
      assert Mentions(r.own, m) by { assert Candidate(r.own[0]) == Some(m); }
      Appended(if a == u then Rest(Link(x, a, a)) else Link(x, a, a), r.own, m);
      assert Mentions(Link(y, a, a), m);
    }
  }

  // ----- one handling

  lemma FollowerStays(c: Contest, m: Addr, x: Net, y: Net, u: Addr, a: Addr, e: Event)
    requires IsEarliest(c, m) && Handled(c, x, y, u, a, e) && Proper(c, Envelope(u, a, e))
    requires Lead(x, a) == m && (e.LeaderAck? ==> e.addr == m)
    ensures Lead(y, a) == m
  { }

  lemma SecondFollows(c: Contest, m: Addr, b: Addr, x: Net, y: Net, u: Addr, a: Addr, e: Event)
    requires ValidContest(c) && IsSecond(c, m, b) && OnlyAnnounced(c, m, b, x) && SecondInv(c, m, b, x)
    requires Lead(x, b) == m && Handled(c, x, y, u, a, e) && Proper(c, Envelope(u, a, e))
    ensures SecondInv(c, m, b, y)
  {
    hide Respond, Link, Backed, Underway, Mentions;
    assert e in Link(x, u, a);
    if a == b {
      FollowerStays(c, m, x, y, u, a, e);
      FollowerIsSilent(c, m, b, Acks(x, b), e);
    }
    forall j | j in c.ts && j != b ensures Backed(Link(y, b, j), m) && (Lead(y, j) == m || Underway(c, m, j, y)) {
      var s := Link(x, b, j);
      if a == b {
        BackedGoesOn(s, Respond(c, b, m, Acks(x, b), e).out, m);
        if Lead(x, j) != m { StaysUnderway(c, m, x, y, u, a, e, j); }
      } else if j != a {
        assert s + [] == s;
        if Lead(x, j) != m { StaysUnderway(c, m, x, y, u, a, e, j); }
      } else {
        TakerHears(c, m, b, x, y, u, j, e);
      }
    }
  }

  lemma FollowerIsSilent(c: Contest, m: Addr, b: Addr, acks: nat, e: Event)
    requires IsEarliest(c, m) && b in c.ts && b != m
    ensures forall o :: o in Respond(c, b, m, acks, e).out ==> !o.LeaderAck?
  { }

  lemma TakerHears(c: Contest, m: Addr, b: Addr, x: Net, y: Net, u: Addr, j: Addr, e: Event)
    requires ValidContest(c) && IsSecond(c, m, b) && OnlyAnnounced(c, m, b, x)
    requires Handled(c, x, y, u, j, e) && Proper(c, Envelope(u, j, e)) && j != b
    requires Backed(Link(x, b, j), m) && (Lead(x, j) == m || Underway(c, m, j, x))
    ensures Backed(Link(y, b, j), m) && (Lead(y, j) == m || Underway(c, m, j, y))
  {
    hide Respond, Link, Backed, Mentions;
    assert e in Link(x, u, j);
    var s := Link(x, b, j);
    assert s + [] == s && Rest(s) + [] == Rest(s);
    if u == b { BackedRest(s, m); }
    if Candidate(e) == Some(m) {
      HearsOf(c, m, x, y, u, j, e);
    } else if Lead(x, j) != m {
      StaysUnderway(c, m, x, y, u, j, e, j);
    } else if e.LeaderAck? {
      assert u == b && Mentions(Link(y, b, j), m);
    } else {
      FollowerStays(c, m, x, y, u, j, e);
    }
  }

  lemma SecondStands(c: Contest, m: Addr, b: Addr, x: Net, y: Net, u: Addr, a: Addr, e: Event)
    requires ValidContest(c) && IsSecond(c, m, b) && OnlyAnnounced(c, m, b, x) && SecondInv(c, m, b, x)
    requires Lead(x, b) == b && Handled(c, x, y, u, a, e) && Proper(c, Envelope(u, a, e))
    ensures SecondInv(c, m, b, y)
  {
    hide Respond, Link, Underway, Mentions, Heralded;
    assert e in Link(x, u, a);
    var s := Link(x, m, b);
    if a == b {
      assert s + [] == s && Rest(s) + [] == Rest(s);
      if u == m && !IsSwitchTo(m, e) { HeraldedRest(s, m); }
      if IsSwitchTo(m, e) {
        SecondYields(c, m, b, x, y, u, e);
      } else {
        SecondStays(c, m, b, Acks(x, b), e);
        if Candidate(e) == Some(m) { HearsOf(c, m, x, y, u, a, e); }
        else { StaysUnderway(c, m, x, y, u, a, e, b); }
      }
    } else {
      StaysUnderway(c, m, x, y, u, a, e, b);
      if a == m {
        EarliestHeralds(c, m, Lead(x, m), Acks(x, m), e);
        HeraldedGoesOn(s, Respond(c, m, Lead(x, m), Acks(x, m), e).out, m);
      } else {
        assert s + [] == s;
      }
    }
  }

  lemma SecondStays(c: Contest, m: Addr, b: Addr, acks: nat, e: Event)
    requires ValidContest(c) && IsSecond(c, m, b) && Proper(c, Envelope(m, b, e))
    requires !IsSwitchTo(m, e) && !e.LeaderAck?
    ensures Respond(c, b, b, acks, e).lead == b
  { }

  lemma EarliestHeralds(c: Contest, m: Addr, lead: Addr, acks: nat, e: Event)
    requires m in c.ts && lead in c.ts
    requires e.LeaderReqAck? && e.addr == m ==> e.ts == c.ts[m]
    ensures Heralded(Respond(c, m, lead, acks, e).out, m)
  {
    var out := Respond(c, m, lead, acks, e).out;
    forall k | 0 <= k < |out| && out[k].LeaderAck? ensures exists h :: 0 <= h < k && IsSwitchTo(m, out[h]) {
      assert IsSwitchTo(m, out[0]);
    }
  }

  /** When the second earliest gives way, it acks `m` to everybody, behind all that it has announced. */
  lemma SecondYields(c: Contest, m: Addr, b: Addr, x: Net, y: Net, u: Addr, e: Event)
    requires ValidContest(c) && IsSecond(c, m, b) && Lead(x, b) == b
    requires Handled(c, x, y, u, b, e) && Proper(c, Envelope(u, b, e)) && IsSwitchTo(m, e)
    ensures SecondInv(c, m, b, y)
  {
    hide Link, Backed;
    var ack := Event.LeaderReqAck(m, c.ts[m]);
    assert Respond(c, b, b, Acks(x, b), e).out == [ack];
    assert Mentions([ack], m) by { assert Candidate([ack][0]) == Some(m); }
    forall j | j in c.ts && j != b ensures Backed(Link(y, b, j), m) && Underway(c, m, j, y) {
      AllBacked(Link(x, b, j), [ack], m);
      Appended(Link(x, b, j), [ack], m);
      assert Link(y, b, j) == Link(x, b, j) + [ack];
    }
  }

  // ----- nobody else collects a quorum

  /** How many of `order` follow a candidate later than `t`; these could still vote for `t`. */
  function MayVote(c: Contest, order: seq<Addr>, x: Net, t: int): nat {
    if order == [] then 0
    else (if Lead(x, order[0]) in c.ts && c.ts[Lead(x, order[0])] > t then 1 else 0) + MayVote(c, order[1..], x, t)
  }

  lemma {:induction false} MayVoteFalls(c: Contest, order: seq<Addr>, x: Net, y: Net, a: Addr, t: int)
    requires forall p :: p != a ==> Lead(y, p) == Lead(x, p)
    requires forall i, j :: 0 <= i < j < |order| ==> order[i] != order[j]
    requires Lead(x, a) in c.ts && Lead(y, a) in c.ts
    ensures MayVote(c, order, y, t)
         == MayVote(c, order, x, t)
            + if a in order then (if c.ts[Lead(y, a)] > t then 1 else 0) - (if c.ts[Lead(x, a)] > t then 1 else 0)
              else 0
  {
    hide Lead;
    if order == [] {
    } else {
      MayVoteFalls(c, order[1..], x, y, a, t);
      assert order == [order[0]] + order[1..];
    }
  }

  /** The votes that `z` has counted, those on the way to it, and those that may still come. */
  ghost function Hopes(c: Contest, z: Addr, x: Net): nat
    requires z in c.ts
  {
    Acks(x, z) + VotesInFlight(z, Bag(x).flight) + MayVote(c, c.order, x, c.ts[z])
  }

  function IsVote(z: Addr, e: Event): nat {
    if e.LeaderReqAck? && e.addr == z then 1 else 0
  }

  function VotesOn(z: Addr, s: seq<Event>): nat {
    if s == [] then 0 else IsVote(z, s[0]) + VotesOn(z, s[1..])
  }

  lemma {:induction false} VotesOnLink(z: Addr, s: seq<Envelope>, a: Addr)
    requires forall v :: v in s ==> v.from == a
    ensures VotesInFlight(z, s) == VotesOn(z, On(s, a, z))
  {
    if s == [] {
    } else {
      VotesOnLink(z, s[1..], a);
      assert s[0] in s;
      var rest := On(s[1..], a, z);
      assert ([s[0].event] + rest)[1..] == rest;
      assert [] + rest == rest;
    }
  }

  /** The votes that one response casts for `z`. */
  lemma VotesCast(c: Contest, z: Addr, a: Addr, lead: Addr, acks: nat, e: Event)
    requires lead in c.ts && a in c.ts && z in c.ts
    ensures var r := Respond(c, a, lead, acks, e);
            && VotesOn(z, r.own) == 0
            && VotesOn(z, r.out)
               == if e.LeaderSwitchPriority? && e.voteHost == z && e.ts < c.ts[lead] && z != a then 1 else 0
  {
    var r := Respond(c, a, lead, acks, e);
    assert forall s: seq<Event> :: |s| == 1 ==> s[1..] == [];
    if |r.out| == 2 {
      assert r.out[1..] == [r.out[1]];
      assert r.out[1..][1..] == [];
    }
  }

  lemma VotesAfter(c: Contest, z: Addr, x: Net, i: nat)
    requires NetInv(c, x) && CanGo(x, Handle(i)) && z in c.ts
    ensures var v := x.inbox[i];
            && Lead(x, v.to) in c.ts && v.to in c.ts
            && VotesInFlight(z, Bag(Go(c, x, Handle(i))).flight) + (if VoteFor(z, v) then 1 else 0)
            == VotesInFlight(z, Bag(x).flight)
               + if v.event.LeaderSwitchPriority? && v.event.voteHost == z
                    && v.event.ts < c.ts[Lead(x, v.to)] && z != v.to then 1 else 0
  {
    hide Step, RouteAll, RaceInv, On, VotesInFlight, Respond, Contestant, Proper, VotesOn;
    var v := x.inbox[i];
    var sent := Sent(c, x.nodes[v.to], v);
    GoInBag(c, x, Handle(i));
    HandlerInRace(c, x, i);
    VotesInAnyOrder(z, Deliver(c, Bag(x), i).flight, Bag(Go(c, x, Handle(i))).flight);
    VotesWithout(z, Bag(x).flight, i);
    VotesConcat(z, Without(Bag(x).flight, i), sent);
    SentFrom(c, x.nodes[v.to], v);
    VotesOnLink(z, sent, v.to);
    Responds(c, x.nodes[v.to], v, z);
    VotesCast(c, z, v.to, Lead(x, v.to), Acks(x, v.to), v.event);
  }

  lemma LeadFalls(c: Contest, m: Addr, b: Addr, z: Addr, v: Envelope, lead: Addr, acks: nat)
    requires IsSecond(c, m, b) && z in c.ts && z != m && z != b && lead in c.ts
    requires Proper(c, v) && (v.event.LeaderAck? ==> v.event.addr == m || v.event.addr == b)
    ensures var e := v.event;
            var r := Respond(c, v.to, lead, acks, e);
            && r.lead in c.ts
            && (c.ts[r.lead] > c.ts[z] ==> c.ts[lead] > c.ts[z])
            && (e.LeaderSwitchPriority? && e.voteHost == z && e.ts < c.ts[lead] ==> c.ts[r.lead] <= c.ts[z])
            && (v.to == z ==> r.acks <= acks + IsVote(z, e))
  { }

  lemma HopesFall(c: Contest, m: Addr, b: Addr, z: Addr, x: Net, i: nat)
    requires NetInv(c, x) && CanGo(x, Handle(i)) && IsSecond(c, m, b) && OnlyAnnounced(c, m, b, x)
    requires z in c.ts && z != m && z != b
    ensures Hopes(c, z, Go(c, x, Handle(i))) <= Hopes(c, z, x)
  {
    hide NetInv, VotesInFlight, MayVote, Go, On, Respond;
    var v := x.inbox[i];
    var y := Go(c, x, Handle(i));
    HandleEffect(c, x, i);
    HandlerInRace(c, x, i);
    VotesAfter(c, z, x, i);
    assert v.event in Link(x, v.from, v.to);
    LeadFalls(c, m, b, z, v, Lead(x, v.to), Acks(x, v.to));
    MayVoteFalls(c, c.order, x, y, v.to, c.ts[z]);
  }

  ghost predicate NoThird(c: Contest, m: Addr, b: Addr, x: Net) {
    forall z :: z in c.ts && z != m && z != b ==> Hopes(c, z, x) < |c.order| / 2
  }

  lemma {:induction false} CountedVote(z: Addr, s: seq<Envelope>, i: nat)
    requires i < |s| && VoteFor(z, s[i])
    ensures VotesInFlight(z, s) >= 1
  {
    VotesWithout(z, s, i);
  }

  lemma AnnouncesWithQuorum(c: Contest, a: Addr, lead: Addr, acks: nat, e: Event, o: Event)
    requires lead in c.ts && a in c.ts && o.LeaderAck?
    ensures o !in Respond(c, a, lead, acks, e).own
    ensures o in Respond(c, a, lead, acks, e).out ==>
              o.addr == a && e.LeaderReqAck? && e.addr == a && acks + 1 >= |c.order| / 2
  { }

  lemma FromWhere(c: Contest, x: Net, y: Net, v: Envelope, u: Addr, q: Addr, e: Event)
    requires Handled(c, x, y, v.from, v.to, v.event) && u in c.ts && q in c.ts
    requires e in Link(y, u, q) && e !in Link(x, u, q)
    ensures var r := Respond(c, v.to, Lead(x, v.to), Acks(x, v.to), v.event); u == v.to && (e in r.own || e in r.out)
  {
    hide Link, Respond;
  }

  lemma StillOnlyAnnounced(c: Contest, m: Addr, b: Addr, x: Net, i: nat)
    requires NetInv(c, x) && CanGo(x, Handle(i)) && OnlyAnnounced(c, m, b, x) && NoThird(c, m, b, x)
    ensures OnlyAnnounced(c, m, b, Go(c, x, Handle(i)))
  {
    hide NetInv, VotesInFlight, MayVote, Go, Link, Respond, Handled;
    var v := x.inbox[i];
    var y := Go(c, x, Handle(i));
    HandleEffect(c, x, i);
    HandlerInRace(c, x, i);
    if VoteFor(v.to, v) { CountedVote(v.to, Bag(x).flight, i); }
    forall u, q, e | u in c.ts && q in c.ts && e in Link(y, u, q) && e.LeaderAck?
      ensures e.addr == u && (u == m || u == b)
    {
      if e !in Link(x, u, q) {
        FromWhere(c, x, y, v, u, q, e);
        AnnouncesWithQuorum(c, v.to, Lead(x, v.to), Acks(x, v.to), v.event, e);
      }
    }
  }

  // ----- the whole race

  ghost predicate SmallInv(c: Contest, m: Addr, b: Addr, x: Net) {
    && NetInv(c, x) && IsSecond(c, m, b) && m in x.nodes && VotesAddUp(c, m, Bag(x))
    && OnlyAnnounced(c, m, b, x) && NoThird(c, m, b, x) && SecondInv(c, m, b, x)
  }

  lemma ArriveKeeps(c: Contest, m: Addr, b: Addr, x: Net, y: Net)
    requires ValidContest(c) && IsSecond(c, m, b) && SameLinks(c, x, y)
    ensures OnlyAnnounced(c, m, b, x) ==> OnlyAnnounced(c, m, b, y)
    ensures SecondInv(c, m, b, x) ==> SecondInv(c, m, b, y)
  {
    hide Link, Mentions, Backed, Heralded;
    forall j | j in c.ts && Underway(c, m, j, x) ensures Underway(c, m, j, y) {
      var u :| u in c.ts && Mentions(Link(x, u, j), m);
      assert Mentions(Link(y, u, j), m);
    }
  }

  lemma {:induction false} MayVoteSame(c: Contest, order: seq<Addr>, x: Net, y: Net, t: int)
    requires forall p :: Lead(y, p) == Lead(x, p)
    ensures MayVote(c, order, y, t) == MayVote(c, order, x, t)
  {
    hide Lead;
    if order == [] {
    } else {
      MayVoteSame(c, order[1..], x, y, t);
    }
  }

  lemma NetIsValid(c: Contest, x: Net)
    requires NetInv(c, x)
    ensures ValidContest(c)
  { }

  lemma GoKeepsSmall(c: Contest, m: Addr, b: Addr, x: Net, mv: Move)
    requires SmallInv(c, m, b, x) && CanGo(x, mv)
    ensures SmallInv(c, m, b, Go(c, x, mv))
  {
    hide NetInv, VotesAddUp, OnlyAnnounced, SecondInv, Go, VotesInFlight, MayVote, Link;
    var y := Go(c, x, mv);
    GoKeepsInv(c, x, mv);
    GoKeepsVotes(c, m, x, mv);
    NetIsValid(c, x);
    match mv {
      case Arrive(i) =>
        ArriveEffect(c, x, i);
        ArriveKeeps(c, m, b, x, y);
        GoInBag(c, x, mv);
        forall z | z in c.ts && z != m && z != b ensures Hopes(c, z, y) < |c.order| / 2 {
          VotesInAnyOrder(z, Bag(x).flight, Bag(y).flight);
          MayVoteSame(c, c.order, x, y, c.ts[z]);
        }
      case Handle(i) =>
        HandleEffect(c, x, i);
        HandlerInRace(c, x, i);
        StillOnlyAnnounced(c, m, b, x, i);
        forall z | z in c.ts && z != m && z != b ensures Hopes(c, z, y) < |c.order| / 2 {
          HopesFall(c, m, b, z, x, i);
        }
        SecondStep(c, m, b, x, y, x.inbox[i]);
    }
  }

  lemma SecondStep(c: Contest, m: Addr, b: Addr, x: Net, y: Net, v: Envelope)
    requires ValidContest(c) && IsSecond(c, m, b) && OnlyAnnounced(c, m, b, x) && SecondInv(c, m, b, x)
    requires Handled(c, x, y, v.from, v.to, v.event) && Proper(c, v)
    ensures SecondInv(c, m, b, y)
  {
    hide Link, Heralded, Backed, Underway, Respond, OnlyAnnounced;
    assert v == Envelope(v.from, v.to, v.event);
    if Lead(x, b) == b {
      SecondStands(c, m, b, x, y, v.from, v.to, v.event);
    } else {
      SecondFollows(c, m, b, x, y, v.from, v.to, v.event);
    }
  }

  lemma {:induction false} RunKeepsSmall(c: Contest, m: Addr, b: Addr, x: Net, ms: seq<Move>)
    requires SmallInv(c, m, b, x) && CanRun(c, x, ms)
    ensures SmallInv(c, m, b, Run(c, x, ms))
    decreases |ms|
  {
    hide SmallInv, Go, CanGo;
    if ms == [] {
    } else {
      GoKeepsSmall(c, m, b, x, ms[0]);
      RunKeepsSmall(c, m, b, Go(c, x, ms[0]), ms[1..]);
    }
  }

  // ----- the start and the end

  lemma {:induction false} LaterThan(c: Contest, order: seq<Addr>, x: Net, t: int, s: set<Addr>)
    requires forall a :: a in s ==> a in order && Lead(x, a) in c.ts && c.ts[Lead(x, a)] <= t
    ensures MayVote(c, order, x, t) + |s| <= |order|
  {
    hide Lead;
    if order == [] {
      assert s == {};
    } else {
      assert order == [order[0]] + order[1..];
      LaterThan(c, order[1..], x, t, s - {order[0]});
    }
  }

  lemma {:induction false} OnlyRequests(z: Addr, s: seq<Envelope>)
    requires forall v :: v in s ==> v.event.LeaderReq?
    ensures VotesInFlight(z, s) == 0
  {
    if s == [] {
    } else {
      OnlyRequests(z, s[1..]);
      assert s[0] in s;
    }
  }

  lemma OnlyRequestsOnLinks(c: Contest, m: Addr, b: Addr, x: Net)
    requires Begins(c, x)
    ensures OnlyAnnounced(c, m, b, x) && Heralded(Link(x, m, b), m)
  {
    hide AllStand, On;
    forall u, q, e | u in c.ts && q in c.ts && e in Link(x, u, q)
      ensures e.LeaderAck? ==> e.addr == u && (u == m || u == b)
    {
      OnMembers(x.inbox + x.wire, u, q, e);
    }
    forall k | 0 <= k < |Link(x, m, b)| ensures Link(x, m, b)[k].LeaderReq? {
      OnMembers(x.inbox + x.wire, m, b, Link(x, m, b)[k]);
    }
  }

  lemma AllForThemselves(c: Contest, x: Net, a: Addr)
    requires Begins(c, x) && a in c.ts
    ensures Lead(x, a) == a && Acks(x, a) == 0 && a in c.order && a in x.nodes
    ensures forall d :: d in c.ts && d != a ==> Event.LeaderReq(a, c.ts[a]) in Link(x, a, d)
  {
    hide Proper, On;
    forall d | d in c.ts && d != a ensures Event.LeaderReq(a, c.ts[a]) in Link(x, a, d) {
      OnMembers(x.inbox + x.wire, a, d, Event.LeaderReq(a, c.ts[a]));
    }
  }

  lemma NoThirdYet(c: Contest, m: Addr, b: Addr, z: Addr, x: Net)
    requires Begins(c, x) && IsSecond(c, m, b) && |c.order| <= 4 && z in c.ts && z != m && z != b
    ensures Hopes(c, z, x) < |c.order| / 2
  {
    hide Lead, Acks, VotesInFlight, MayVote, AllStand, NetInv;
    BeginsInRace(c, x);
    forall a | a in c.ts ensures Lead(x, a) == a && Acks(x, a) == 0 && a in c.order { AllForThemselves(c, x, a); }
    OnlyRequests(z, Bag(x).flight);
    hide Begins;
    LaterThan(c, c.order, x, c.ts[z], {z, m, b});
  }

  lemma StartIsSmall(c: Contest, m: Addr, b: Addr, x: Net)
    requires Begins(c, x) && IsSecond(c, m, b) && |c.order| <= 4
    ensures SmallInv(c, m, b, x)
  {
    hide AllStand, RaceInv, VotesAddUp, AllCarried, Hopes, Link, Lead, Begins, Acks;
    BeginsInRace(c, x);
    StartIsCarried(c, m, Bag(x));
    OnlyRequestsOnLinks(c, m, b, x);
    AllForThemselves(c, x, b);
    AllForThemselves(c, x, m);
    forall z | z in c.ts && z != m && z != b ensures Hopes(c, z, x) < |c.order| / 2 {
      NoThirdYet(c, m, b, z, x);
    }
    var k :| 0 <= k < |Link(x, m, b)| && Link(x, m, b)[k] == Event.LeaderReq(m, c.ts[m]);
    assert Candidate(Link(x, m, b)[k]) == Some(m);
    assert Mentions(Link(x, m, b), m);
    assert Underway(c, m, b, x);
  }

  /** Whatever the order of up to four hosts and their connections, when nothing is left to do, the earliest
      candidate leads and all others follow it. */
  lemma SmallRacesElect(c: Contest, m: Addr, b: Addr, x: Net, ms: seq<Move>)
    requires Begins(c, x) && IsSecond(c, m, b) && |c.order| <= 4
    requires CanRun(c, x, ms) && Run(c, x, ms).inbox + Run(c, x, ms).wire == []
    ensures Run(c, x, ms).nodes.Keys == c.ts.Keys && Elected(c, m, Bag(Run(c, x, ms)))
  {
    hide Go, CanGo, RaceInv, VotesAddUp, Elected, SecondInv, OnlyAnnounced, NoThird, Begins;
    StartIsSmall(c, m, b, x);
    RunKeepsSmall(c, m, b, x, ms);
    var y := Run(c, x, ms);
    NetIsValid(c, y);
    SameHosts(c, Bag(y));
    NothingLeft(c, m, b, y);
    AllLedIsElected(c, m, y);
  }

  lemma NothingLeft(c: Contest, m: Addr, b: Addr, y: Net)
    requires ValidContest(c) && IsSecond(c, m, b) && SecondInv(c, m, b, y) && y.inbox + y.wire == []
    requires NetInv(c, y)
    ensures forall a :: a in c.ts ==> Lead(y, a) == m
  {
    hide NetInv;
    assert forall u, j :: Link(y, u, j) == [];
    assert Lead(y, b) == m;
  }
}
