/** Which races always elect the earliest candidate: exactly those of at most four hosts. */
module Leaderless {
  import opened Types
  import opened QuorumStep
  import opened Wire
  import opened Race
  import opened Cascade
  import opened Earliest
  import opened Queues
  import opened SmallRaces
  import opened Prompt
  import opened LateNews

  // ----- the second collects its quorum while what would stop it waits in its own queue

  /** The votes of the others for the second, from `i` on. */
  function Ballots(c: Contest, k: Cast, i: nat): seq<Envelope>
    requires IsCast(c, k)
    decreases |k.xs| - i
  {
    if i >= |k.xs| then [] else [Envelope(k.xs[i], k.b, Ak(c, k.b))] + Ballots(c, k, i + 1)
  }

  function First(c: Contest, k: Cast): Envelope
    requires IsCast(c, k)
  {
    Envelope(k.d, k.b, Ak(c, k.m))
  }

  function Last(c: Contest, k: Cast): Envelope
    requires IsCast(c, k)
  {
    Envelope(k.m, k.b, An(c, k.m))
  }

  function Own(c: Contest, k: Cast): Envelope
    requires IsCast(c, k)
  {
    Envelope(k.b, k.b, Sw(c, k.m))
  }

  lemma {:induction false} BallotsAre(c: Contest, k: Cast, i: nat)
    requires IsCast(c, k) && i <= |k.xs|
    ensures forall v :: v in Ballots(c, k, i) ==> v.event == Ak(c, k.b)
    decreases |k.xs| - i
  {
    if i == |k.xs| {
    } else {
      BallotsAre(c, k, i + 1);
    }
  }

  lemma StillSame(c: Contest, x: Net, y: Net, z: Net)
    requires SameLinks(c, x, y) && SameLinks(c, y, z)
    ensures SameLinks(c, x, z)
  {
    hide Link, Lead, Acks;
  }

  /** What all others and then the earliest have sent arrives behind what is there. */
  lemma {:induction false} AllArrive(c: Contest, k: Cast, i: nat, x: Net) returns (ms: seq<Move>, y: Net)
    requires NetInv(c, x) && IsCast(c, k) && i <= |k.xs|
    requires forall v :: v in x.inbox ==> !v.event.LeaderReq?
    requires forall j :: i <= j < |k.xs| ==> On(x.wire, k.xs[j], k.b) == [Ak(c, k.b)]
    requires On(x.wire, k.m, k.b) == [An(c, k.m)]
    ensures CanRun(c, x, ms) && y == Run(c, x, ms) && NetInv(c, y) && SameLinks(c, x, y)
    ensures y.inbox == x.inbox + (Ballots(c, k, i) + [Last(c, k)])
    decreases |k.xs| - i
  {
    hide NetInv, On, Go, CanGo, SameLinks;
    if i == |k.xs| {
      var a, x1 := ArriveFirst(c, x, k.m, k.b);
      ms, y := [Arrive(a)], x1;
      assert Ballots(c, k, i) + [Last(c, k)] == [Last(c, k)];
    } else {
      var a, x1 := ArriveFirst(c, x, k.xs[i], k.b);
      var rest, x2 := AllArrive(c, k, i + 1, x1);
      RunOn(c, x, [Arrive(a)], rest);
      ms, y := [Arrive(a)] + rest, x2;
      StillSame(c, x, x1, x2);
      OneBallot(c, k, i, x.inbox);
    }
  }

  lemma OneBallot(c: Contest, k: Cast, i: nat, inbox: seq<Envelope>)
    requires IsCast(c, k) && i < |k.xs|
    ensures inbox + [Envelope(k.xs[i], k.b, Ak(c, k.b))] + (Ballots(c, k, i + 1) + [Last(c, k)])
         == inbox + (Ballots(c, k, i) + [Last(c, k)])
  { }

  /** What the second says on the vote `i`; it has one already. */
  function SaidOn(c: Contest, k: Cast, i: nat): seq<Event>
    requires IsCast(c, k)
  {
    [Sw(c, k.b)] + if i + 2 >= Half(c) then [An(c, k.b)] else []
  }

  /** What the second says on the votes from `i` on. */
  function Counting(c: Contest, k: Cast, i: nat): seq<Event>
    requires IsCast(c, k)
    decreases |k.xs| - i
  {
    if i >= |k.xs| then []
    else SaidOn(c, k, i) + Counting(c, k, i + 1)
  }

  lemma Counts(c: Contest, k: Cast, acks: nat)
    requires IsCast(c, k)
    ensures Respond(c, k.b, k.b, acks, Ak(c, k.b))
         == Response(k.b, acks + 1, [], [Sw(c, k.b)] + if acks + 1 >= Half(c) then [An(c, k.b)] else [])
    ensures Wrap(k.b, []) == []
  { }

  /** From `x` to `y` the second has handled the only message on the way from `u` and said `out`. */
  ghost predicate SecondSaid(c: Contest, k: Cast, u: Addr, lead: Addr, acks: nat, out: seq<Event>, x: Net, y: Net)
    requires IsCast(c, k)
  {
    && Lead(y, k.b) == lead && Acks(y, k.b) == acks
    && (forall p :: p != k.b ==> Lead(y, p) == Lead(x, p) && Acks(y, p) == Acks(x, p))
    && (forall p, q :: p in c.ts && q in c.ts && p != k.b && q != k.b ==> Link(y, p, q) == Link(x, p, q))
    && (forall q :: q in c.ts && q != k.b ==> Link(y, k.b, q) == Link(x, k.b, q) + out)
    && (forall p :: p in c.ts && p != u && p != k.b ==> Link(y, p, k.b) == Link(x, p, k.b))
    && (u != k.b && u in c.ts ==> Link(y, u, k.b) == Rest(Link(x, u, k.b)))
  }

  lemma SecondHandles(c: Contest, k: Cast, x: Net, y: Net, u: Addr, e: Event, r: Response)
    requires IsCast(c, k) && Handled(c, x, y, u, k.b, e) && r == Respond(c, k.b, Lead(x, k.b), Acks(x, k.b), e)
    ensures SecondSaid(c, k, u, r.lead, r.acks, r.out, x, y)
  {
    hide Link, Lead, Acks, Respond;
    forall p, q | p in c.ts && q in c.ts
      ensures p != k.b && (q != k.b || p != u) ==> Link(y, p, q) == Link(x, p, q)
      ensures p == k.b && q != k.b ==> Link(y, p, q) == Link(x, p, q) + r.out
      ensures q == k.b && p == u && p != k.b ==> Link(y, p, q) == Rest(Link(x, p, q))
    {
      assert Link(x, p, q) + [] == Link(x, p, q) && Rest(Link(x, p, q)) + [] == Rest(Link(x, p, q));
    }
  }

  /** The links after the second has counted the votes from `i` on. */
  ghost predicate Counted(c: Contest, k: Cast, i: nat, x: Net, y: Net)
    requires IsCast(c, k)
  {
    && Lead(y, k.b) == k.b
    && (forall p :: p != k.b ==> Lead(y, p) == Lead(x, p) && Acks(y, p) == Acks(x, p))
    && (forall p, q :: p in c.ts && q in c.ts && p != k.b && q != k.b ==> Link(y, p, q) == Link(x, p, q))
    && (forall q :: q in c.ts && q != k.b ==> Link(y, k.b, q) == Link(x, k.b, q) + Counting(c, k, i))
    && (forall p :: p in c.ts && p !in k.xs && p != k.b ==> Link(y, p, k.b) == Link(x, p, k.b))
    && (forall j :: 0 <= j < |k.xs| ==>
          Link(y, k.xs[j], k.b) == if j < i then Link(x, k.xs[j], k.b) else Rest(Link(x, k.xs[j], k.b)))
  }

  lemma CountedOne(c: Contest, k: Cast, i: nat, x: Net, x1: Net, y: Net)
    requires IsCast(c, k) && i < |k.xs| && SecondSaid(c, k, k.xs[i], k.b, i + 2, SaidOn(c, k, i), x, x1)
    requires Counted(c, k, i + 1, x1, y)
    ensures Counted(c, k, i, x, y)
  {
    hide Link, Lead, Acks, Counting, SaidOn;
    CountingOn(c, k, i);
    forall q | q in c.ts && q != k.b ensures Link(y, k.b, q) == Link(x, k.b, q) + Counting(c, k, i) {
      var s, t, u := Link(x, k.b, q), SaidOn(c, k, i), Counting(c, k, i + 1);
      assert s + t + u == s + (t + u);
    }
    assert k.xs[i] in k.xs;
  }

  lemma CountingOn(c: Contest, k: Cast, i: nat)
    requires IsCast(c, k) && i < |k.xs|
    ensures Counting(c, k, i) == SaidOn(c, k, i) + Counting(c, k, i + 1)
  { }

  lemma CountedNone(c: Contest, k: Cast, x: Net)
    requires IsCast(c, k) && Lead(x, k.b) == k.b
    ensures Counted(c, k, |k.xs|, x, x)
  {
    hide Link, Lead, Acks;
    forall q | q in c.ts ensures Link(x, k.b, q) == Link(x, k.b, q) + Counting(c, k, |k.xs|) {
    }
  }

  lemma {:induction false} CountAll(c: Contest, k: Cast, i: nat, x: Net, tail: seq<Envelope>)
      returns (ms: seq<Move>, y: Net)
    requires NetInv(c, x) && IsCast(c, k) && i <= |k.xs| && Lead(x, k.b) == k.b && Acks(x, k.b) == i + 1
    requires x.inbox == Ballots(c, k, i) + tail
    ensures CanRun(c, x, ms) && y == Run(c, x, ms) && NetInv(c, y)
    ensures y.inbox == tail && Counted(c, k, i, x, y)
    decreases |k.xs| - i
  {
    hide NetInv, Go, CanGo, Link, Respond, Lead, Acks, Counting, Half, Counted, Handled;
    if i == |k.xs| {
      ms, y := [], x;
      assert [] + tail == tail;
      CountedNone(c, k, x);
    } else {
      Counts(c, k, i + 1);
      var x1 := HandleFirst(c, x);
      SecondHandles(c, k, x, x1, k.xs[i], Ak(c, k.b), Response(k.b, i + 2, [], SaidOn(c, k, i)));
      assert (Ballots(c, k, i) + tail)[1..] == Ballots(c, k, i + 1) + tail;
      assert x1.inbox == Ballots(c, k, i + 1) + tail;
      var rest, x2 := CountAll(c, k, i + 1, x1, tail);
      RunOn(c, x, [Handle(0)], rest);
      ms, y := [Handle(0)] + rest, x2;
      CountedOne(c, k, i, x, x1, y);
    }
  }

  lemma SecondResponds(c: Contest, k: Cast, acks: nat)
    requires IsCast(c, k)
    ensures Respond(c, k.b, k.b, acks, Ak(c, k.m)) == Response(k.b, acks, [Sw(c, k.m)], [Sw(c, k.m)])
    ensures Respond(c, k.b, k.b, acks, An(c, k.m)) == Response(k.m, 0, [], [])
    ensures Respond(c, k.b, k.m, acks, Sw(c, k.m)) == Response(k.m, acks, [], [])
    ensures Wrap(k.b, [Sw(c, k.m)]) == [Own(c, k)] && Wrap(k.b, []) == []
  {
    assert [Sw(c, k.m)][1..] == [];
  }

  /** The second collects its quorum, announces itself, and then follows the earliest again without a word. */
  lemma SecondWins(c: Contest, k: Cast, x: Net) returns (ms: seq<Move>, y: Net)
    requires At9(c, k, x)
    ensures CanRun(c, x, ms) && y == Run(c, x, ms) && AtRest(c, y)
    ensures Lead(y, k.b) == k.m && (forall p :: p != k.b ==> Lead(y, p) == Lead(x, p))
    ensures forall p, q :: p in c.ts && q in c.ts && p != k.b && q != k.b ==> Link(y, p, q) == Link(x, p, q)
    ensures forall p :: p in c.ts && p != k.b ==> Link(y, p, k.b) == []
    ensures forall q :: q in c.ts && q != k.b ==> Link(y, k.b, q) == Link(x, k.b, q) + [Sw(c, k.m)] + Counting(c, k, 0)
  {
    hide NetInv, Go, CanGo, Link, On, Respond, Lead, Acks, Counting, Half, Handled, Run, CanRun, AllMute, NoLoser, Wrap;
    LinkAtRest(c, x);
    SecondResponds(c, k, 1);
    var a, x1 := ArriveFirst(c, x, k.d, k.b);
    assert x1.inbox == [First(c, k)];
    var p, x2 := AllArrive(c, k, 0, x1);
    RunOn(c, x, [Arrive(a)], p);
    ms := [Arrive(a)] + p;
    StillSame(c, x, x1, x2);
    var x3 := HandleFirst(c, x2);
    RunOn(c, x, ms, [Handle(0)]);
    ms := ms + [Handle(0)];
    SecondHandles(c, k, x2, x3, k.d, Ak(c, k.m), Response(k.b, 1, [Sw(c, k.m)], [Sw(c, k.m)]));
    var tail := [Last(c, k), Own(c, k)];
    assert x2.inbox[1..] == Ballots(c, k, 0) + [Last(c, k)];
    assert x3.inbox == Ballots(c, k, 0) + tail;
    var q, x4 := CountAll(c, k, 0, x3, tail);
    RunOn(c, x, ms, q);
    ms := ms + q;
    SecondResponds(c, k, Acks(x4, k.b));
    var x5 := HandleFirst(c, x4);
    RunOn(c, x, ms, [Handle(0)]);
    ms := ms + [Handle(0)];
    SecondHandles(c, k, x4, x5, k.m, An(c, k.m), Response(k.m, 0, [], []));
    assert x5.inbox == [Own(c, k)];
    SecondResponds(c, k, 0);
    y := HandleFirst(c, x5);
    RunOn(c, x, ms, [Handle(0)]);
    ms := ms + [Handle(0)];
    SecondHandles(c, k, x5, y, k.b, Sw(c, k.m), Response(k.m, 0, [], []));
    LinksInAll(c, k, x, x2, x3, x4, x5, y);
  }

  lemma LinksInAll(c: Contest, k: Cast, x: Net, x2: Net, x3: Net, x4: Net, x5: Net, y: Net)
    requires At9(c, k, x) && SameLinks(c, x, x2)
    requires SecondSaid(c, k, k.d, k.b, 1, [Sw(c, k.m)], x2, x3)
    requires Counted(c, k, 0, x3, x4)
    requires SecondSaid(c, k, k.m, k.m, 0, [], x4, x5) && SecondSaid(c, k, k.b, k.m, 0, [], x5, y)
    ensures Lead(y, k.b) == k.m && (forall p :: p != k.b ==> Lead(y, p) == Lead(x, p))
    ensures forall p, q :: p in c.ts && q in c.ts && p != k.b && q != k.b ==> Link(y, p, q) == Link(x, p, q)
    ensures forall p :: p in c.ts && p != k.b ==> Link(y, p, k.b) == []
    ensures forall q :: q in c.ts && q != k.b ==> Link(y, k.b, q) == Link(x, k.b, q) + [Sw(c, k.m)] + Counting(c, k, 0)
  {
    hide NetInv, Link, Lead, Acks, Counting, AllMute, NoLoser;
    forall q | q in c.ts && q != k.b
      ensures Link(y, k.b, q) == Link(x, k.b, q) + [Sw(c, k.m)] + Counting(c, k, 0)
    {
      var s := Link(x, k.b, q) + [Sw(c, k.m)] + Counting(c, k, 0);
      assert s + [] == s;
    }
    forall p | p in c.ts && p != k.b ensures Link(y, p, k.b) == [] {
      if p in k.xs {
        var j :| 0 <= j < |k.xs| && k.xs[j] == p;
      }
    }
  }

  // ----- the announcement comes last everywhere

  /** It begins with an announcement of `b` and says nothing that does not name `b`. */
  ghost predicate LastWords(c: Contest, k: Cast, last: seq<Event>)
    requires IsCast(c, k)
  {
    last != [] && last[0] == An(c, k.b) && AboutSecond(c, k, last)
  }

  ghost predicate AboutSecond(c: Contest, k: Cast, es: seq<Event>)
    requires IsCast(c, k)
  {
    forall e :: e in es ==> e == Sw(c, k.b) || e == An(c, k.b)
  }

  lemma {:induction false} CountingIsAbout(c: Contest, k: Cast, i: nat)
    requires IsCast(c, k) && i <= |k.xs|
    ensures AboutSecond(c, k, Counting(c, k, i))
    decreases |k.xs| - i
  {
    if i == |k.xs| {
    } else {
      CountingIsAbout(c, k, i + 1);
    }
  }

  lemma {:induction false} SplitCounting(c: Contest, k: Cast, i: nat) returns (pre: seq<Event>, last: seq<Event>)
    requires IsCast(c, k) && i < |k.xs|
    ensures Counting(c, k, i) == pre + last && NoNews(pre) && LastWords(c, k, last)
    decreases |k.xs| - i
  {
    CountingIsAbout(c, k, i);
    CountingIsAbout(c, k, i + 1);
    if i + 2 >= Half(c) {
      pre, last := [Sw(c, k.b)], [An(c, k.b)] + Counting(c, k, i + 1);
    } else {
      var p, l := SplitCounting(c, k, i + 1);
      pre, last := [Sw(c, k.b)] + p, l;
    }
  }

  lemma WinIsSettled(c: Contest, k: Cast, x: Net, y: Net) returns (last: seq<Event>)
    requires At9(c, k, x) && IsEarliest(c, k.m)
    requires Lead(y, k.b) == k.m && (forall p :: p != k.b ==> Lead(y, p) == Lead(x, p))
    requires forall p, q :: p in c.ts && q in c.ts && p != k.b && q != k.b ==> Link(y, p, q) == Link(x, p, q)
    requires forall p :: p in c.ts && p != k.b ==> Link(y, p, k.b) == []
    requires forall q :: q in c.ts && q != k.b ==>
               Link(y, k.b, q) == Link(x, k.b, q) + [Sw(c, k.m)] + Counting(c, k, 0)
    ensures LastWords(c, k, last) && Settled(c, k.m, k.b, last, y)
  {
    hide NetInv, Link, Lead, Counting, Half;
    var pre;
    EnoughOthers(c, k);
    pre, last := SplitCounting(c, k, 0);
    forall u, q | u in c.ts && q in c.ts && u != q && u != k.b ensures NoLoser(k.m, Link(y, u, q)) {
      if q != k.b { QuietLinks(c, k, x, u, q); }
    }
    forall q | q in c.ts && q != k.b ensures EndsWith(k.m, Link(y, k.b, q), last) {
      var s := Link(x, k.b, q) + [Sw(c, k.m)] + pre;
      assert Link(y, k.b, q) == s + last;
      assert (s + last)[..|s|] == s && (s + last)[|s|..] == last;
    }
    forall a | a in c.ts ensures Lead(y, a) == k.m {
      if a in k.xs {
        var j :| 0 <= j < |k.xs| && k.xs[j] == a;
      }
    }
  }

  lemma QuietLinks(c: Contest, k: Cast, x: Net, u: Addr, q: Addr)
    requires At9(c, k, x) && u in c.ts && q in c.ts && u != q && u != k.b && q != k.b
    ensures NoLoser(k.m, Link(x, u, q))
  {
    hide NetInv, Link, Lead, Acks;
    if u in k.xs {
      var j :| 0 <= j < |k.xs| && k.xs[j] == u;
      assert Mute(c, x, k.xs[j]);
    } else if q in k.xs {
      var j :| 0 <= j < |k.xs| && k.xs[j] == q;
    }
  }

  lemma KeepsTo(c: Contest, k: Cast, a: Addr, lead: Addr, acks: nat, e: Event)
    requires IsCast(c, k) && a in c.ts && lead in c.ts && ((e == Sw(c, k.b) && lead == k.b) || e == An(c, k.b))
    ensures var r := Reply(c, a, lead, acks, e); r.lead == k.b && r.out == [] && Named(c, e)
  { }

  lemma {:induction false} KeepsToSecond(c: Contest, k: Cast, a: Addr, acks: nat, es: seq<Event>)
    requires IsCast(c, k) && a in c.ts && AboutSecond(c, k, es)
    ensures var r := Talk(c, a, k.b, acks, es); r.lead == k.b && r.out == []
    decreases |es|
  {
    hide Reply;
    if es == [] {
    } else {
      assert es[0] in es;
      KeepsTo(c, k, a, k.b, acks, es[0]);
      assert forall e :: e in es[1..] ==> e in es;
      KeepsToSecond(c, k, a, Reply(c, a, k.b, acks, es[0]).acks, es[1..]);
    }
  }

  lemma BelievesLastWords(c: Contest, k: Cast, a: Addr, acks: nat, last: seq<Event>)
    requires IsCast(c, k) && a in c.ts && LastWords(c, k, last)
    ensures var r := Talk(c, a, k.m, acks, last); r.lead == k.b && r.out == []
  {
    hide Talk, Reply;
    assert last == [An(c, k.b)] + last[1..];
    KeepsTo(c, k, a, k.m, acks, An(c, k.b));
    TalkNext(c, a, k.m, acks, An(c, k.b), last[1..]);
    assert forall e :: e in last[1..] ==> e in last;
    KeepsToSecond(c, k, a, Reply(c, a, k.m, acks, An(c, k.b)).acks, last[1..]);
  }

  /** The first `i` hosts have heard the last words; all follow the earliest or the second. */
  ghost predicate Ending(c: Contest, k: Cast, last: seq<Event>, i: nat, x: Net) {
    && AtRest(c, x) && IsCast(c, k) && i <= |c.order| && Lead(x, k.b) == k.m
    && (forall j :: 0 <= j < |c.order| && c.order[j] != k.b ==> Lead(x, c.order[j]) == if j < i then k.b else k.m)
    && (forall j :: 0 <= j < |c.order| && c.order[j] != k.b ==>
          Link(x, k.b, c.order[j]) == if j < i then [] else last)
    && (forall u, q :: u in c.ts && q in c.ts && u != q && u != k.b ==> Link(x, u, q) == [])
  }

  /** `a` has heard the last words and follows the second; nothing else has changed. */
  ghost predicate Convinced(c: Contest, k: Cast, a: Addr, x: Net, y: Net) {
    && Lead(y, a) == k.b && (forall p :: p != a ==> Lead(y, p) == Lead(x, p))
    && forall u, q :: u in c.ts && q in c.ts && u != q ==>
         Link(y, u, q) == if u == k.b && q == a then [] else Link(x, u, q)
  }

  lemma GetsConvinced(c: Contest, k: Cast, last: seq<Event>, a: Addr, x: Net, y: Net)
    requires IsCast(c, k) && LastWords(c, k, last) && a in c.ts && a != k.b
    requires Lead(x, a) == k.m && Link(x, k.b, a) == last && Heard(c, x, y, k.b, a, |last|)
    ensures Convinced(c, k, a, x, y)
  {
    hide Link, Lead, Acks, Talk, LastWords;
    assert last[..|last|] == last && last[|last|..] == [];
    BelievesLastWords(c, k, a, Acks(x, a), last);
    forall u, q | u in c.ts && q in c.ts && u != q
      ensures Link(y, u, q) == if u == k.b && q == a then [] else Link(x, u, q)
    {
      NextLink(c, x, y, k.b, a, |last|, u, q);
      assert Link(x, u, q) + [] == Link(x, u, q);
    }
  }

  lemma StepEnding(c: Contest, k: Cast, last: seq<Event>, i: nat, x: Net, y: Net)
    requires Ending(c, k, last, i, x) && i < |c.order| && c.order[i] != k.b
    requires AtRest(c, y) && Convinced(c, k, c.order[i], x, y)
    ensures Ending(c, k, last, i + 1, y)
  {
    hide AtRest, Link, Lead;
    forall j | 0 <= j < |c.order| && c.order[j] != k.b
      ensures Link(y, k.b, c.order[j]) == if j < i + 1 then [] else last
      ensures Lead(y, c.order[j]) == if j < i + 1 then k.b else k.m
    {
      if j != i { assert c.order[j] != c.order[i]; }
    }
  }

  lemma NextEnding(c: Contest, k: Cast, last: seq<Event>, i: nat, x: Net)
    requires Ending(c, k, last, i, x) && i < |c.order|
    ensures AtRest(c, x) && k.b in c.ts && c.order[i] in c.ts
    ensures c.order[i] != k.b ==> Lead(x, c.order[i]) == k.m && Link(x, k.b, c.order[i]) == last
    ensures c.order[i] == k.b ==> Ending(c, k, last, i + 1, x)
  {
    hide AtRest, Link, Lead;
  }

  lemma {:induction false} AllEnd(c: Contest, k: Cast, last: seq<Event>, i: nat, x: Net) returns (ms: seq<Move>, y: Net)
    requires Ending(c, k, last, i, x) && LastWords(c, k, last)
    ensures CanRun(c, x, ms) && y == Run(c, x, ms) && Ending(c, k, last, |c.order|, y)
    decreases |c.order| - i
  {
    hide AtRest, Link, Lead, Acks, Go, CanGo, Heard, LastWords, Convinced;
    if i == |c.order| {
      ms, y := [], x;
    } else {
      NextEnding(c, k, last, i, x);
      if c.order[i] == k.b {
        ms, y := AllEnd(c, k, last, i + 1, x);
      } else {
        var first, x1 := Hear(c, x, k.b, c.order[i], |last|);
        GetsConvinced(c, k, last, c.order[i], x, x1);
        StepEnding(c, k, last, i, x, x1);
        var rest, x2 := AllEnd(c, k, last, i + 1, x1);
        RunOn(c, x, first, rest);
        ms, y := first + rest, x2;
      }
    }
  }

  lemma StartsEnding(c: Contest, k: Cast, last: seq<Event>, x: Net)
    requires AtRest(c, x) && IsCast(c, k) && Settled(c, k.m, k.b, last, x) && OnlyLast(c, k.b, last, x)
    ensures Ending(c, k, last, 0, x)
  {
    hide NetInv, Link, Lead, NoLoser, EndsWith, NothingToAnswer;
  }

  lemma EndedIsLeaderless(c: Contest, k: Cast, last: seq<Event>, x: Net)
    requires Ending(c, k, last, |c.order|, x)
    ensures x.inbox + x.wire == [] && x.nodes.Keys == c.ts.Keys
    ensures forall a :: a in c.ts ==> x.nodes[a].state == Follower
  {
    hide Link, Contestant;
    forall u, q | u in c.ts && q in c.ts && u != q ensures Link(x, u, q) == [] {
      if u == k.b { var j :| 0 <= j < |c.order| && c.order[j] == q; }
    }
    NothingOnWire(c, k.b, x);
    SameHosts(c, Bag(x));
    forall a | a in c.ts ensures x.nodes[a].state == Follower {
      ContestantLeader(c, a, x.nodes[a]);
      var j :| 0 <= j < |c.order| && c.order[j] == a;
      assert Lead(x, a) != a;
    }
  }

  // ----- the exact condition

  /** Every host has sent its request once to each other one, and nothing has arrived. */
  ghost predicate BeginsOnce(c: Contest, x: Net) {
    && Begins(c, x) && x.inbox == []
    && forall a, q :: a in c.ts && q in c.ts && a != q ==> |Link(x, a, q)| == 1
  }

  lemma EarliestButOne(c: Contest, m: Addr) returns (b: Addr)
    requires ValidContest(c) && DistinctTimes(c) && IsEarliest(c, m)
    ensures IsSecond(c, m, b)
  {
    assert c.order[0] in c.ts && c.order[1] in c.ts && c.order[0] != c.order[1];
    assert (if c.order[0] == m then c.order[1] else c.order[0]) in c.ts.Keys - {m};
    b := EarliestOf(c, c.ts.Keys - {m});
  }

  lemma TheCast(c: Contest, m: Addr) returns (k: Cast)
    requires ValidContest(c) && DistinctTimes(c) && IsEarliest(c, m) && |c.order| >= 5
    ensures IsCast(c, k) && k.m == m
  {
    var b := EarliestButOne(c, m);
    MinusKeeps(c.order, m);
    var two := Minus(c.order, m);
    MinusKeeps(two, b);
    var rest := Minus(two, b);
    assert rest[0] in rest;
    assert rest[0] in c.ts.Keys - {m, b};
    var d := EarliestOf(c, c.ts.Keys - {m, b});
    MinusKeeps(rest, d);
    k := Cast(m, b, d, Minus(rest, d));
    forall j | 0 <= j < |k.xs| ensures k.xs[j] in c.ts && c.ts[d] < c.ts[k.xs[j]] {
      assert k.xs[j] in k.xs;
    }
  }

  lemma OnceOnLink(c: Contest, x: Net, a: Addr, q: Addr)
    requires BeginsOnce(c, x) && a in c.ts && q in c.ts && a != q
    ensures Link(x, a, q) == [Rq(c, a)] && Lead(x, a) == a && Acks(x, a) == 0
  {
    hide Begins, Link, Lead, Acks;
    AllForThemselves(c, x, a);
    OwnRequestsOnly(c, x, a, q);
    assert Link(x, a, q)[0] in Link(x, a, q);
  }

  lemma Starts(c: Contest, k: Cast, x: Net)
    requires BeginsOnce(c, x) && IsCast(c, k)
    ensures At1(c, k, 0, x)
  {
    hide Link, Lead, Acks, NetInv, Begins, AllMute, AllStand;
    BeginsInRace(c, x);
    forall a, q | a in c.ts && q in c.ts && a != q
      ensures Link(x, a, q) == [Rq(c, a)] && Lead(x, a) == a && Acks(x, a) == 0
    {
      OnceOnLink(c, x, a, q);
    }
    StartsMute(c, k, x);
  }

  lemma StartsMute(c: Contest, k: Cast, x: Net)
    requires BeginsOnce(c, x) && IsCast(c, k)
    ensures AllMute(c, k, x)
  {
    hide Link, Begins;
    forall u | u in c.ts ensures Mute(c, x, u) {
      forall q, e | q in c.ts && q != u && e in Link(x, u, q) ensures !e.LeaderAck? {
        OnceOnLink(c, x, u, q);
      }
    }
  }

  /** The second earliest has been misled, and what it needs is on its connections. */
  lemma Prelude(c: Contest, k: Cast, x: Net) returns (ms: seq<Move>, y: Net)
    requires BeginsOnce(c, x) && IsCast(c, k)
    ensures CanRun(c, x, ms) && y == Run(c, x, ms) && At9(c, k, y)
  {
    hide At1, At2, At3, At5, At6, At7, At8, At9, Go, CanGo, BeginsOnce;
    Starts(c, k, x);
    EnoughOthers(c, k);
    var p, x1 := Phase1(c, k, 0, x);
    ms := p;
    From1To2(c, k, x1);
    p, y := Phase2(c, k, 0, x1);
    RunOn(c, x, ms, p);
    ms := ms + p;
    p, y := Phase3(c, k, y);
    RunOn(c, x, ms, p);
    ms := ms + p;
    p, y := Phase4(c, k, y);
    RunOn(c, x, ms, p);
    ms := ms + p;
    p, y := Phase5(c, k, 0, y);
    RunOn(c, x, ms, p);
    ms := ms + p;
    p, y := Phase6a(c, k, y);
    RunOn(c, x, ms, p);
    ms := ms + p;
    p, y := Phase6(c, k, 0, y);
    RunOn(c, x, ms, p);
    ms := ms + p;
    From6To7(c, k, y);
    p, y := Phase7(c, k, 0, y);
    RunOn(c, x, ms, p);
    ms := ms + p;
    p, y := From7To8(c, k, y);
    RunOn(c, x, ms, p);
    ms := ms + p;
    p, y := Phase8(c, k, 0, y);
    RunOn(c, x, ms, p);
    ms := ms + p;
    p, y := From8To9(c, k, y);
    RunOn(c, x, ms, p);
    ms := ms + p;
  }

  /** In any cluster of at least five hosts, for any distinct timestamps, the queues can take turns such that in
      the end nothing is left in them and everybody is a follower. */
  lemma RaceWithoutLeader(c: Contest, m: Addr, x: Net) returns (ms: seq<Move>)
    requires BeginsOnce(c, x) && DistinctTimes(c) && IsEarliest(c, m) && |c.order| >= 5
    ensures CanRun(c, x, ms)
    ensures var y := Run(c, x, ms);
            && y.inbox + y.wire == [] && y.nodes.Keys == c.ts.Keys
            && forall a :: a in c.ts ==> y.nodes[a].state == Follower
  {
    hide At9, Go, CanGo, Settled, OnlyLast, Ending, LastWords, Link, Lead, Begins, AtRest;
    BeginsInRace(c, x);
    var k := TheCast(c, m);
    var p, x1 := Prelude(c, k, x);
    ms := p;
    var q, x2 := SecondWins(c, k, x1);
    RunOn(c, x, ms, q);
    ms := ms + q;
    var last := WinIsSettled(c, k, x1, x2);
    var r, x3 := HearAllElse(c, m, k.b, last, x2);
    RunOn(c, x, ms, r);
    ms := ms + r;
    StartsEnding(c, k, last, x3);
    var s, y := AllEnd(c, k, last, 0, x3);
    RunOn(c, x, ms, s);
    ms := ms + s;
    EndedIsLeaderless(c, k, last, y);
  }

  /** Every run of a race that comes to its end elects the earliest candidate, if and only if at most four
      hosts take part. */
  lemma AlwaysElectsIffFour(c: Contest, m: Addr, x: Net)
    requires BeginsOnce(c, x) && DistinctTimes(c) && IsEarliest(c, m)
    ensures (forall ms :: CanRun(c, x, ms) && Run(c, x, ms).inbox + Run(c, x, ms).wire == [] ==>
               Run(c, x, ms).nodes.Keys == c.ts.Keys && Elected(c, m, Bag(Run(c, x, ms))))
            <==> |c.order| <= 4
  {
    hide Begins, Run, CanRun, Link;
    BeginsInRace(c, x);
    if |c.order| <= 4 {
      var b := EarliestButOne(c, m);
      forall ms | CanRun(c, x, ms) && Run(c, x, ms).inbox + Run(c, x, ms).wire == []
        ensures Run(c, x, ms).nodes.Keys == c.ts.Keys && Elected(c, m, Bag(Run(c, x, ms)))
      {
        SmallRacesElect(c, m, b, x, ms);
      }
    } else {
      var ms := RaceWithoutLeader(c, m, x);
    }
  }
}
