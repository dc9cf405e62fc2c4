/** From five hosts on a race can end without a leader, although no connection reorders anything: a host that
    already follows the earliest candidate is talked into standing again by the announcement of a third one,
    collects a quorum, and its own announcement comes last everywhere. */
module LateNews {
  import opened Types
  import opened QuorumStep
  import opened Wire
  import opened Race
  import opened Cascade
  import opened Earliest
  import opened Queues
  import opened SmallRaces
  import opened Prompt

  /** The earliest host, the next two, and all others. */
  datatype Cast = Cast(m: Addr, b: Addr, d: Addr, xs: seq<Addr>)

  ghost predicate IsCast(c: Contest, k: Cast) {
    && ValidContest(c) && |c.order| >= 5 && |k.xs| >= |c.order| - 3
    && k.m in c.ts && k.b in c.ts && k.d in c.ts && c.ts[k.m] < c.ts[k.b] < c.ts[k.d]
    && (forall j :: 0 <= j < |k.xs| ==> k.xs[j] in c.ts && c.ts[k.d] < c.ts[k.xs[j]])
    && (forall i, j :: 0 <= i < j < |k.xs| ==> k.xs[i] != k.xs[j])
    && (forall a :: a in c.ts ==> a == k.m || a == k.b || a == k.d || a in k.xs)
  }

  function Rq(c: Contest, a: Addr): Event
    requires a in c.ts
  {
    Event.LeaderReq(a, c.ts[a])
  }

  function Ak(c: Contest, a: Addr): Event
    requires a in c.ts
  {
    Event.LeaderReqAck(a, c.ts[a])
  }

  function Sw(c: Contest, a: Addr): Event
    requires a in c.ts
  {
    Event.LeaderSwitchPriority(a, c.ts[a])
  }

  function An(c: Contest, a: Addr): Event
    requires a in c.ts
  {
    Event.LeaderAck(a, c.ts[a])
  }

  function Rep(e: Event, n: nat): (s: seq<Event>)
    ensures |s| == n && forall i :: 0 <= i < n ==> s[i] == e
  {
    seq(n, _ => e)
  }

  // ----- how the hosts reply

  lemma {:induction false} TalkConcat(c: Contest, a: Addr, lead: Addr, acks: nat, es: seq<Event>, fs: seq<Event>)
    requires lead in c.ts && a in c.ts && forall e :: e in es + fs ==> Named(c, e)
    ensures var r := Talk(c, a, lead, acks, es);
            && r.lead in c.ts && r.own == []
            && var s := Talk(c, a, r.lead, r.acks, fs);
            Talk(c, a, lead, acks, es + fs) == Response(s.lead, s.acks, s.own, r.out + s.out)
    decreases |es|
  {
    hide Reply;
    if es == [] {
      assert es + fs == fs;
      var s := Talk(c, a, lead, acks, fs);
      assert [] + s.out == s.out;
    } else {
      assert es[0] in es + fs;
      ReplyIsComplete(c, a, lead, acks, es[0]);
      var r := Reply(c, a, lead, acks, es[0]);
      assert forall e :: e in es[1..] + fs ==> e in es + fs;
      TalkConcat(c, a, r.lead, r.acks, es[1..], fs);
      assert (es + fs)[1..] == es[1..] + fs;
      var t := Talk(c, a, r.lead, r.acks, es[1..]);
      var s := Talk(c, a, t.lead, t.acks, fs);
      assert r.out + (t.out + s.out) == (r.out + t.out) + s.out;
    }
  }

  /** Switches to later candidates than the own leader change nothing. */
  lemma {:induction false} Ignores(c: Contest, a: Addr, lead: Addr, acks: nat, x: Addr, n: nat)
    requires lead in c.ts && a in c.ts && x in c.ts && c.ts[lead] <= c.ts[x]
    ensures Talk(c, a, lead, acks, Rep(Sw(c, x), n)) == Response(lead, acks, [], [])
  {
    if n == 0 {
    } else {
      Ignores(c, a, lead, acks, x, n - 1);
      assert Rep(Sw(c, x), n)[1..] == Rep(Sw(c, x), n - 1);
    }
  }

  lemma TalkOne(c: Contest, a: Addr, lead: Addr, acks: nat, e: Event)
    requires lead in c.ts && a in c.ts && Named(c, e)
    ensures var r := Reply(c, a, lead, acks, e);
            r.lead in c.ts && r.own == [] && Talk(c, a, lead, acks, [e]) == Response(r.lead, r.acks, [], r.out)
  {
    hide Reply;
    ReplyIsComplete(c, a, lead, acks, e);
    TalkOn(c, a, lead, acks, [e]);
    var r := Reply(c, a, lead, acks, e);
    assert [e][1..] == [] && r.out + [] == r.out;
  }

  lemma TalkNext(c: Contest, a: Addr, lead: Addr, acks: nat, e: Event, fs: seq<Event>)
    requires lead in c.ts && a in c.ts && Named(c, e)
    ensures var r := Reply(c, a, lead, acks, e);
            && r.lead in c.ts
            && var s := Talk(c, a, r.lead, r.acks, fs);
            Talk(c, a, lead, acks, [e] + fs) == Response(s.lead, s.acks, s.own, r.out + s.out)
  {
    hide Reply;
    ReplyIsComplete(c, a, lead, acks, e);
    TalkOn(c, a, lead, acks, [e] + fs);
    assert ([e] + fs)[1..] == fs;
  }

  // ----- what is known of the queues

  /** The leader of one of the others, and what is on its connections. */
  datatype Seen = Seen(lead: Addr, fromM: seq<Event>, fromD: seq<Event>, toM: seq<Event>, toB: seq<Event>)

  ghost predicate Looks(k: Cast, x: Net, h: Addr, s: Seen) {
    && Lead(x, h) == s.lead && Link(x, k.m, h) == s.fromM && Link(x, k.d, h) == s.fromD
    && Link(x, h, k.m) == s.toM && Link(x, h, k.b) == s.toB
  }

  /** The leaders and counts of the three earliest, and what is on the connections between them. */
  datatype Trio = Trio(leadM: Addr, leadB: Addr, leadD: Addr, acksM: nat, acksB: nat, acksD: nat,
                       mb: seq<Event>, md: seq<Event>, bm: seq<Event>, bd: seq<Event>,
                       dm: seq<Event>, db: seq<Event>)

  ghost predicate Core(k: Cast, x: Net, t: Trio) {
    && Lead(x, k.m) == t.leadM && Lead(x, k.b) == t.leadB && Lead(x, k.d) == t.leadD
    && Acks(x, k.m) == t.acksM && Acks(x, k.b) == t.acksB && Acks(x, k.d) == t.acksD
    && Link(x, k.m, k.b) == t.mb && Link(x, k.m, k.d) == t.md
    && Link(x, k.b, k.m) == t.bm && Link(x, k.b, k.d) == t.bd
    && Link(x, k.d, k.m) == t.dm && Link(x, k.d, k.b) == t.db
  }

  /** `u` has no announcement on its connections. */
  ghost predicate Mute(c: Contest, x: Net, u: Addr) {
    forall q, e :: q in c.ts && q != u && e in Link(x, u, q) ==> !e.LeaderAck?
  }

  ghost predicate NoNews(s: seq<Event>) {
    forall e :: e in s ==> !e.LeaderAck?
  }

  ghost predicate AllMute(c: Contest, k: Cast, x: Net) {
    Mute(c, x, k.b) && forall j :: 0 <= j < |k.xs| ==> Mute(c, x, k.xs[j])
  }

  /** One of the others hears from the earliest or the third. */
  lemma OtherHears(c: Contest, k: Cast, x: Net, y: Net, u: Addr, i: nat, n: nat, s: Seen, r: Response)
    requires IsCast(c, k) && i < |k.xs| && (u == k.m || u == k.d) && Looks(k, x, k.xs[i], s)
    requires Heard(c, x, y, u, k.xs[i], n)
    requires r == Talk(c, k.xs[i], Lead(x, k.xs[i]), Acks(x, k.xs[i]), Link(x, u, k.xs[i])[..n])
    ensures Looks(k, y, k.xs[i],
                  Seen(r.lead, if u == k.m then s.fromM[n..] else s.fromM, if u == k.d then s.fromD[n..] else s.fromD,
                       s.toM + r.out, s.toB + r.out))
    ensures Acks(y, k.xs[i]) == r.acks
    ensures forall t :: Core(k, x, t) ==> Core(k, y, t)
    ensures AllMute(c, k, x) && NoNews(r.out) ==> AllMute(c, k, y)
  {
    hide Link, Talk, Lead, Acks;
    var h := k.xs[i];
    assert Link(y, k.m, h) == if u == k.m then s.fromM[n..] + [] else s.fromM + [];
    assert Link(y, k.d, h) == if u == k.d then s.fromD[n..] + [] else s.fromD + [];
    forall t | Core(k, x, t) ensures Core(k, y, t) {
      assert forall p: seq<Event> :: p + [] == p;
    }
    if AllMute(c, k, x) && NoNews(r.out) { StaysMute(c, k, x, y, u, h, n, r); }
  }

  lemma StaysMute(c: Contest, k: Cast, x: Net, y: Net, u: Addr, a: Addr, n: nat, r: Response)
    requires IsCast(c, k) && Heard(c, x, y, u, a, n) && AllMute(c, k, x)
    requires r == Talk(c, a, Lead(x, a), Acks(x, a), Link(x, u, a)[..n]) && (a == k.m || a == k.d || NoNews(r.out))
    ensures AllMute(c, k, y)
  {
    hide Link, Talk, Lead, Acks;
    forall p | Mute(c, x, p) && p in c.ts && p != k.m && p != k.d ensures Mute(c, y, p) {
      forall q, e | q in c.ts && q != p && e in Link(y, p, q) ensures !e.LeaderAck? {
        assert e in Link(x, p, q) || (p == a && e in r.out);
      }
    }
  }

  /** The other ones notice nothing. */
  lemma OtherLooksOn(c: Contest, k: Cast, x: Net, y: Net, u: Addr, i: nat, n: nat, j: nat, s: Seen)
    requires IsCast(c, k) && i < |k.xs| && j < |k.xs| && j != i && Heard(c, x, y, u, k.xs[i], n)
    requires Looks(k, x, k.xs[j], s)
    ensures Looks(k, y, k.xs[j], s)
    ensures Link(y, k.xs[j], k.d) == Link(x, k.xs[j], k.d)
  {
    hide Link, Talk, Lead, Acks;
    assert forall p: seq<Event> :: p + [] == p;
  }

  /** The connection from `p` to `q` after `h` has heard `n` messages from `u` and replied. */
  function Next(s: seq<Event>, p: Addr, q: Addr, u: Addr, h: Addr, n: nat, out: seq<Event>): seq<Event> {
    var t := if p == u && q == h && n <= |s| then s[n..] else s;
    if p == h then t + out else t
  }

  function NextTrio(k: Cast, t: Trio, u: Addr, h: Addr, n: nat, r: Response): Trio {
    Trio(if h == k.m then r.lead else t.leadM, if h == k.b then r.lead else t.leadB,
         if h == k.d then r.lead else t.leadD, if h == k.m then r.acks else t.acksM,
         if h == k.b then r.acks else t.acksB, if h == k.d then r.acks else t.acksD,
         Next(t.mb, k.m, k.b, u, h, n, r.out), Next(t.md, k.m, k.d, u, h, n, r.out),
         Next(t.bm, k.b, k.m, u, h, n, r.out), Next(t.bd, k.b, k.d, u, h, n, r.out),
         Next(t.dm, k.d, k.m, u, h, n, r.out), Next(t.db, k.d, k.b, u, h, n, r.out))
  }

  lemma NextLink(c: Contest, x: Net, y: Net, u: Addr, h: Addr, n: nat, p: Addr, q: Addr)
    requires Heard(c, x, y, u, h, n) && p in c.ts && q in c.ts && p != q
    ensures Link(y, p, q) == Next(Link(x, p, q), p, q, u, h, n,
                                  Talk(c, h, Lead(x, h), Acks(x, h), Link(x, u, h)[..n]).out)
  {
    hide Link, Talk, Lead, Acks;
    var s := if p == u && q == h then Link(x, p, q)[n..] else Link(x, p, q);
    assert s + [] == s;
  }

  /** One of the three earliest hears from somebody. */
  lemma HubHears(c: Contest, k: Cast, x: Net, y: Net, u: Addr, h: Addr, n: nat, t: Trio, r: Response)
    requires IsCast(c, k) && (h == k.m || h == k.b || h == k.d) && u != h
    requires Core(k, x, t) && Heard(c, x, y, u, h, n)
    requires r == Talk(c, h, Lead(x, h), Acks(x, h), Link(x, u, h)[..n])
    ensures Core(k, y, NextTrio(k, t, u, h, n, r))
    ensures AllMute(c, k, x) && (h == k.b ==> NoNews(r.out)) ==> AllMute(c, k, y)
  {
    hide Link, Talk, Lead, Acks, Next, Mute;
    NextLink(c, x, y, u, h, n, k.m, k.b);
    NextLink(c, x, y, u, h, n, k.m, k.d);
    NextLink(c, x, y, u, h, n, k.b, k.m);
    NextLink(c, x, y, u, h, n, k.b, k.d);
    NextLink(c, x, y, u, h, n, k.d, k.m);
    NextLink(c, x, y, u, h, n, k.d, k.b);
    if AllMute(c, k, x) && (h == k.b ==> NoNews(r.out)) { StaysMute(c, k, x, y, u, h, n, r); }
  }

  lemma HubHeardBy(c: Contest, k: Cast, x: Net, y: Net, u: Addr, h: Addr, n: nat, j: nat, s: Seen, r: Response)
    requires IsCast(c, k) && (h == k.m || h == k.b || h == k.d) && u != h && j < |k.xs|
    requires Looks(k, x, k.xs[j], s) && Heard(c, x, y, u, h, n)
    requires r == Talk(c, h, Lead(x, h), Acks(x, h), Link(x, u, h)[..n])
    ensures Looks(k, y, k.xs[j], Seen(s.lead,
                                      if h == k.m then s.fromM + r.out else s.fromM,
                                      if h == k.d then s.fromD + r.out else s.fromD,
                                      Next(s.toM, k.xs[j], k.m, u, h, n, []), Next(s.toB, k.xs[j], k.b, u, h, n, [])))
    ensures Link(y, k.xs[j], k.d) == Next(Link(x, k.xs[j], k.d), k.xs[j], k.d, u, h, n, [])
    ensures Acks(y, k.xs[j]) == Acks(x, k.xs[j])
  {
    hide Link, Talk, Lead, Acks;
    NextLink(c, x, y, u, h, n, k.m, k.xs[j]);
    NextLink(c, x, y, u, h, n, k.d, k.xs[j]);
    NextLink(c, x, y, u, h, n, k.xs[j], k.m);
    NextLink(c, x, y, u, h, n, k.xs[j], k.b);
    NextLink(c, x, y, u, h, n, k.xs[j], k.d);
  }

  // ----- the others hear of the third and ack it

  function Out3(c: Contest, k: Cast, h: Addr): seq<Event>
    requires k.d in c.ts && h in c.ts
  {
    [Rq(c, h), Sw(c, k.d), Ak(c, k.d)]
  }

  function Trio0(c: Contest, k: Cast): Trio
    requires IsCast(c, k)
  {
    Trio(k.m, k.b, k.d, 0, 0, 0, [Rq(c, k.m)], [Rq(c, k.m)], [Rq(c, k.b)], [Rq(c, k.b)], [Rq(c, k.d)], [Rq(c, k.d)])
  }

  function See1(c: Contest, k: Cast, i: nat, j: nat): Seen
    requires IsCast(c, k) && j < |k.xs|
  {
    var h := k.xs[j];
    if j < i then Seen(k.d, [Rq(c, k.m)], [], Out3(c, k, h), Out3(c, k, h))
    else Seen(h, [Rq(c, k.m)], [Rq(c, k.d)], [Rq(c, h)], [Rq(c, h)])
  }

  ghost predicate At1(c: Contest, k: Cast, i: nat, x: Net) {
    && AtRest(c, x) && IsCast(c, k) && i <= |k.xs| && Core(k, x, Trio0(c, k)) && AllMute(c, k, x)
    && forall j :: 0 <= j < |k.xs| ==>
         && Looks(k, x, k.xs[j], See1(c, k, i, j))
         && Link(x, k.xs[j], k.d) == if j < i then Out3(c, k, k.xs[j]) else [Rq(c, k.xs[j])]
  }

  lemma Says1(c: Contest, k: Cast, h: Addr, acks: nat)
    requires IsCast(c, k) && h in k.xs
    ensures Talk(c, h, h, acks, [Rq(c, k.d)]) == Response(k.d, acks, [], [Sw(c, k.d), Ak(c, k.d)])
    ensures NoNews([Sw(c, k.d), Ak(c, k.d)])
  {
    TalkOne(c, h, h, acks, Rq(c, k.d));
  }

  lemma Step1(c: Contest, k: Cast, i: nat, x: Net, y: Net)
    requires At1(c, k, i, x) && i < |k.xs| && AtRest(c, y) && Heard(c, x, y, k.d, k.xs[i], 1)
    ensures At1(c, k, i + 1, y)
  {
    hide Link, Talk, Lead, Acks, NetInv, Core, Looks, AllMute, Trio0;
    var h := k.xs[i];
    LooksLead(c, k, x, i, See1(c, k, i, i));
    assert [Rq(c, k.d)][..1] == [Rq(c, k.d)] && [Rq(c, k.d)][1..] == [];
    Says1(c, k, h, Acks(x, h));
    var r := Talk(c, h, h, Acks(x, h), [Rq(c, k.d)]);
    OtherHears(c, k, x, y, k.d, i, 1, See1(c, k, i, i), r);
    assert [Rq(c, h)] + r.out == Out3(c, k, h);
    NextLink(c, x, y, k.d, h, 1, h, k.d);
    forall j | 0 <= j < |k.xs| && j != i
      ensures Looks(k, y, k.xs[j], See1(c, k, i + 1, j)) && Link(y, k.xs[j], k.d) == Link(x, k.xs[j], k.d)
    {
      OtherLooksOn(c, k, x, y, k.d, i, 1, j, See1(c, k, i, j));
    }
  }

  lemma LooksLead(c: Contest, k: Cast, x: Net, i: nat, s: Seen)
    requires IsCast(c, k) && i < |k.xs| && Looks(k, x, k.xs[i], s)
    ensures Lead(x, k.xs[i]) == s.lead && Link(x, k.m, k.xs[i]) == s.fromM && Link(x, k.d, k.xs[i]) == s.fromD
    ensures Link(x, k.xs[i], k.m) == s.toM && Link(x, k.xs[i], k.b) == s.toB
  { }

  lemma {:induction false} Phase1(c: Contest, k: Cast, i: nat, x: Net) returns (ms: seq<Move>, y: Net)
    requires At1(c, k, i, x)
    ensures CanRun(c, x, ms) && y == Run(c, x, ms) && At1(c, k, |k.xs|, y)
    decreases |k.xs| - i
  {
    hide Link, Lead, Acks, NetInv, Core, AllMute, Trio0, Heard, Go, CanGo, Looks;
    if i == |k.xs| {
      ms, y := [], x;
    } else {
      LooksLead(c, k, x, i, See1(c, k, i, i));
      var first, x1 := Hear(c, x, k.d, k.xs[i], 1);
      Step1(c, k, i, x, x1);
      var rest, x2 := Phase1(c, k, i + 1, x1);
      RunOn(c, x, first, rest);
      ms, y := first + rest, x2;
    }
  }

  // ----- the third collects a quorum, and the two earliest make themselves known to it

  function Half(c: Contest): nat {
    |c.order| / 2
  }

  /** What the third sends on the first `i` votes. */
  function Said2(c: Contest, k: Cast, i: nat): seq<Event>
    requires IsCast(c, k)
  {
    Rep(Sw(c, k.d), 2 * i) + if i >= Half(c) then [An(c, k.d)] else []
  }

  function Trio2(c: Contest, k: Cast, i: nat): Trio
    requires IsCast(c, k)
  {
    Trio0(c, k).(acksD := i, dm := [Rq(c, k.d)] + Said2(c, k, i), db := [Rq(c, k.d)] + Said2(c, k, i))
  }

  function See2(c: Contest, k: Cast, i: nat, j: nat): Seen
    requires IsCast(c, k) && j < |k.xs|
  {
    Seen(k.d, [Rq(c, k.m)], Said2(c, k, i), Out3(c, k, k.xs[j]), Out3(c, k, k.xs[j]))
  }

  ghost predicate At2(c: Contest, k: Cast, i: nat, x: Net) {
    && AtRest(c, x) && IsCast(c, k) && i <= Half(c) && Core(k, x, Trio2(c, k, i)) && AllMute(c, k, x)
    && forall j :: 0 <= j < |k.xs| ==>
         && Looks(k, x, k.xs[j], See2(c, k, i, j))
         && Link(x, k.xs[j], k.d) == if j < i then [] else Out3(c, k, k.xs[j])
  }

  lemma From1To2(c: Contest, k: Cast, x: Net)
    requires At1(c, k, |k.xs|, x)
    ensures At2(c, k, 0, x)
  {
    hide Link, Lead, Acks, NetInv, Core, AllMute;
    assert Said2(c, k, 0) == [];
    assert Trio2(c, k, 0) == Trio0(c, k);
    forall j | 0 <= j < |k.xs| ensures See2(c, k, 0, j) == See1(c, k, |k.xs|, j) {
    }
  }

  lemma Says2(c: Contest, k: Cast, h: Addr, acks: nat)
    requires IsCast(c, k) && h in k.xs
    ensures Talk(c, k.d, k.d, acks, Out3(c, k, h))
         == Response(k.d, acks + 1, [],
                     [Sw(c, k.d), Sw(c, k.d)] + if acks + 1 >= Half(c) then [An(c, k.d)] else [])
  {
    hide Talk;
    assert Out3(c, k, h) == [Rq(c, h)] + ([Sw(c, k.d)] + [Ak(c, k.d)]);
    TalkNext(c, k.d, k.d, acks, Rq(c, h), [Sw(c, k.d)] + [Ak(c, k.d)]);
    TalkNext(c, k.d, k.d, acks, Sw(c, k.d), [Ak(c, k.d)]);
    TalkOne(c, k.d, k.d, acks, Ak(c, k.d));
  }

  lemma MoreSaid2(c: Contest, k: Cast, i: nat, out: seq<Event>)
    requires IsCast(c, k) && i < Half(c)
    requires out == [Sw(c, k.d), Sw(c, k.d)] + if i + 1 >= Half(c) then [An(c, k.d)] else []
    ensures Said2(c, k, i) + out == Said2(c, k, i + 1)
  { }

  lemma CoreFields(k: Cast, x: Net, t: Trio)
    requires Core(k, x, t)
    ensures Lead(x, k.m) == t.leadM && Lead(x, k.b) == t.leadB && Lead(x, k.d) == t.leadD
    ensures Acks(x, k.m) == t.acksM && Acks(x, k.b) == t.acksB && Acks(x, k.d) == t.acksD
    ensures Link(x, k.m, k.b) == t.mb && Link(x, k.m, k.d) == t.md && Link(x, k.b, k.m) == t.bm
    ensures Link(x, k.b, k.d) == t.bd && Link(x, k.d, k.m) == t.dm && Link(x, k.d, k.b) == t.db
  { }

  lemma Step2(c: Contest, k: Cast, i: nat, x: Net, y: Net)
    requires At2(c, k, i, x) && i < Half(c) && i < |k.xs| && AtRest(c, y) && Heard(c, x, y, k.xs[i], k.d, 3)
    ensures At2(c, k, i + 1, y)
  {
    hide Link, Talk, Lead, Acks, NetInv, Core, Looks, AllMute, Said2, Out3;
    var h := k.xs[i];
    CoreFields(k, x, Trio2(c, k, i));
    OutSize(c, k, h);
    assert Out3(c, k, h)[..3] == Out3(c, k, h) && Out3(c, k, h)[3..] == [];
    Says2(c, k, h, i);
    var r := Talk(c, k.d, k.d, i, Out3(c, k, h));
    MoreSaid2(c, k, i, r.out);
    HubHears(c, k, x, y, h, k.d, 3, Trio2(c, k, i), r);
    assert [Rq(c, k.d)] + Said2(c, k, i) + r.out == [Rq(c, k.d)] + Said2(c, k, i + 1);
    assert NextTrio(k, Trio2(c, k, i), h, k.d, 3, r) == Trio2(c, k, i + 1);
    forall j | 0 <= j < |k.xs|
      ensures Looks(k, y, k.xs[j], See2(c, k, i + 1, j))
      ensures Link(y, k.xs[j], k.d) == if j < i + 1 then [] else Out3(c, k, k.xs[j])
    {
      HubHeardBy(c, k, x, y, h, k.d, 3, j, See2(c, k, i, j), r);
    }
  }

  lemma OutSize(c: Contest, k: Cast, h: Addr)
    requires IsCast(c, k) && h in c.ts
    ensures |Out3(c, k, h)| == 3
  { }

  lemma EnoughOthers(c: Contest, k: Cast)
    requires IsCast(c, k)
    ensures 2 <= Half(c) <= |k.xs|
  { }

  lemma {:induction false} Phase2(c: Contest, k: Cast, i: nat, x: Net) returns (ms: seq<Move>, y: Net)
    requires At2(c, k, i, x)
    ensures CanRun(c, x, ms) && y == Run(c, x, ms) && At2(c, k, Half(c), y)
    decreases Half(c) - i
  {
    hide Link, Lead, Acks, NetInv, Core, AllMute, Trio2, Heard, Go, CanGo, Looks, Half, Out3;
    if i == Half(c) {
      ms, y := [], x;
    } else {
      EnoughOthers(c, k);
      OutSize(c, k, k.xs[i]);
      var first, x1 := Hear(c, x, k.xs[i], k.d, 3);
      Step2(c, k, i, x, x1);
      var rest, x2 := Phase2(c, k, i + 1, x1);
      RunOn(c, x, first, rest);
      ms, y := first + rest, x2;
    }
  }

  // what the third says in all
  function Said4(c: Contest, k: Cast): seq<Event>
    requires IsCast(c, k)
  {
    Said2(c, k, Half(c)) + [Sw(c, k.b), Ak(c, k.b), Ak(c, k.m)]
  }

  function Trio3(c: Contest, k: Cast): Trio
    requires IsCast(c, k)
  {
    Trio2(c, k, Half(c)).(leadB := k.m, mb := [],
      bm := [Rq(c, k.b), Sw(c, k.m), Ak(c, k.m)], bd := [Rq(c, k.b), Sw(c, k.m), Ak(c, k.m)])
  }

  function Trio4(c: Contest, k: Cast): Trio
    requires IsCast(c, k)
  {
    Trio3(c, k).(leadD := k.m, bd := [Ak(c, k.m)],
      dm := [Rq(c, k.d)] + Said4(c, k), db := [Rq(c, k.d)] + Said4(c, k))
  }

  function Out5(c: Contest, k: Cast, h: Addr): seq<Event>
    requires IsCast(c, k) && h in c.ts
  {
    Out3(c, k, h) + [Sw(c, k.m), Ak(c, k.m)]
  }

  function See5(c: Contest, k: Cast, i: nat, j: nat): Seen
    requires IsCast(c, k) && j < |k.xs|
  {
    var h := k.xs[j];
    if j < i then Seen(k.m, [], Said4(c, k), Out5(c, k, h), Out5(c, k, h))
    else Seen(k.d, [Rq(c, k.m)], Said4(c, k), Out3(c, k, h), Out3(c, k, h))
  }

  ghost predicate At3(c: Contest, k: Cast, x: Net) {
    && AtRest(c, x) && IsCast(c, k) && Core(k, x, Trio3(c, k)) && AllMute(c, k, x)
    && forall j :: 0 <= j < |k.xs| ==> Looks(k, x, k.xs[j], See2(c, k, Half(c), j))
  }

  ghost predicate At5(c: Contest, k: Cast, i: nat, x: Net) {
    && AtRest(c, x) && IsCast(c, k) && i <= |k.xs| && Core(k, x, Trio4(c, k)) && AllMute(c, k, x)
    && forall j :: 0 <= j < |k.xs| ==> Looks(k, x, k.xs[j], See5(c, k, i, j))
  }

  lemma SecondSays(c: Contest, k: Cast)
    requires IsCast(c, k)
    ensures Talk(c, k.b, k.b, 0, [Rq(c, k.m)]) == Response(k.m, 0, [], [Sw(c, k.m), Ak(c, k.m)])
    ensures NoNews([Sw(c, k.m), Ak(c, k.m)])
  {
    hide Talk;
    TalkOne(c, k.b, k.b, 0, Rq(c, k.m));
  }

  /** The second earliest hears of the earliest. */
  lemma Phase3(c: Contest, k: Cast, x: Net) returns (ms: seq<Move>, y: Net)
    requires At2(c, k, Half(c), x)
    ensures CanRun(c, x, ms) && y == Run(c, x, ms) && At3(c, k, y)
  {
    hide Link, Talk, Lead, Acks, NetInv, Core, Looks, AllMute, Said2, Out3, Heard, Half;
    var t := Trio2(c, k, Half(c));
    CoreFields(k, x, t);
    ms, y := Hear(c, x, k.m, k.b, 1);
    assert [Rq(c, k.m)][..1] == [Rq(c, k.m)];
    SecondSays(c, k);
    var r := Talk(c, k.b, k.b, 0, [Rq(c, k.m)]);
    HubHears(c, k, x, y, k.m, k.b, 1, t, r);
    assert NextTrio(k, t, k.m, k.b, 1, r) == Trio3(c, k);
    forall j | 0 <= j < |k.xs| ensures Looks(k, y, k.xs[j], See2(c, k, Half(c), j)) {
      HubHeardBy(c, k, x, y, k.m, k.b, 1, j, See2(c, k, Half(c), j), r);
    }
  }

  lemma ThirdSays(c: Contest, k: Cast, acks: nat)
    requires IsCast(c, k)
    ensures Talk(c, k.d, k.d, acks, [Rq(c, k.b), Sw(c, k.m)])
         == Response(k.m, acks, [], [Sw(c, k.b), Ak(c, k.b), Ak(c, k.m)])
  {
    hide Talk;
    assert [Rq(c, k.b), Sw(c, k.m)] == [Rq(c, k.b)] + [Sw(c, k.m)];
    TalkNext(c, k.d, k.d, acks, Rq(c, k.b), [Sw(c, k.m)]);
    TalkOne(c, k.d, k.b, acks, Sw(c, k.m));
  }

  /** The third hears of the second earliest, and from that one of the earliest. */
  lemma Phase4(c: Contest, k: Cast, x: Net) returns (ms: seq<Move>, y: Net)
    requires At3(c, k, x)
    ensures CanRun(c, x, ms) && y == Run(c, x, ms) && At5(c, k, 0, y)
  {
    hide Link, Talk, Lead, Acks, NetInv, Core, Looks, AllMute, Said2, Out3, Heard, Half;
    var t := Trio3(c, k);
    CoreFields(k, x, t);
    ms, y := Hear(c, x, k.b, k.d, 2);
    assert t.bd[..2] == [Rq(c, k.b), Sw(c, k.m)] && t.bd[2..] == [Ak(c, k.m)];
    ThirdSays(c, k, Half(c));
    var r := Talk(c, k.d, k.d, Half(c), [Rq(c, k.b), Sw(c, k.m)]);
    HubHears(c, k, x, y, k.b, k.d, 2, t, r);
    var said := Said2(c, k, Half(c));
    assert ([Rq(c, k.d)] + said) + r.out == [Rq(c, k.d)] + Said4(c, k);
    assert NextTrio(k, t, k.b, k.d, 2, r) == Trio4(c, k);
    forall j | 0 <= j < |k.xs| ensures Looks(k, y, k.xs[j], See5(c, k, 0, j)) {
      HubHeardBy(c, k, x, y, k.b, k.d, 2, j, See2(c, k, Half(c), j), r);
    }
  }

  lemma Says5(c: Contest, k: Cast, h: Addr, acks: nat)
    requires IsCast(c, k) && h in k.xs
    ensures Talk(c, h, k.d, acks, [Rq(c, k.m)]) == Response(k.m, acks, [], [Sw(c, k.m), Ak(c, k.m)])
    ensures NoNews([Sw(c, k.m), Ak(c, k.m)])
  {
    hide Talk;
    TalkOne(c, h, k.d, acks, Rq(c, k.m));
  }

  lemma Step5(c: Contest, k: Cast, i: nat, x: Net, y: Net)
    requires At5(c, k, i, x) && i < |k.xs| && AtRest(c, y) && Heard(c, x, y, k.m, k.xs[i], 1)
    ensures At5(c, k, i + 1, y)
  {
    hide Link, Talk, Lead, Acks, NetInv, Core, Looks, AllMute, Trio4, Said4, Out3;
    var h := k.xs[i];
    LooksLead(c, k, x, i, See5(c, k, i, i));
    assert [Rq(c, k.m)][..1] == [Rq(c, k.m)] && [Rq(c, k.m)][1..] == [];
    Says5(c, k, h, Acks(x, h));
    OtherHears(c, k, x, y, k.m, i, 1, See5(c, k, i, i), Talk(c, h, k.d, Acks(x, h), [Rq(c, k.m)]));
    forall j | 0 <= j < |k.xs| && j != i ensures Looks(k, y, k.xs[j], See5(c, k, i + 1, j)) {
      OtherLooksOn(c, k, x, y, k.m, i, 1, j, See5(c, k, i, j));
    }
  }

  lemma {:induction false} Phase5(c: Contest, k: Cast, i: nat, x: Net) returns (ms: seq<Move>, y: Net)
    requires At5(c, k, i, x)
    ensures CanRun(c, x, ms) && y == Run(c, x, ms) && At5(c, k, |k.xs|, y)
    decreases |k.xs| - i
  {
    hide Link, Lead, Acks, NetInv, Core, AllMute, Trio4, Heard, Go, CanGo, Looks, Said4, Out3;
    if i == |k.xs| {
      ms, y := [], x;
    } else {
      LooksLead(c, k, x, i, See5(c, k, i, i));
      var first, x1 := Hear(c, x, k.m, k.xs[i], 1);
      Step5(c, k, i, x, x1);
      var rest, x2 := Phase5(c, k, i + 1, x1);
      RunOn(c, x, first, rest);
      ms, y := first + rest, x2;
    }
  }

  // ----- the earliest is misled by the third, put right by the second, and collects its quorum

  function SeeM(c: Contest, k: Cast, said: seq<Event>, j: nat): Seen
    requires IsCast(c, k) && j < |k.xs|
  {
    Seen(k.m, said, Said4(c, k), Out5(c, k, k.xs[j]), Out5(c, k, k.xs[j]))
  }

  /** The earliest has said `said`. */
  ghost predicate SaidBy(c: Contest, k: Cast, t: Trio, said: seq<Event>, x: Net) {
    && AtRest(c, x) && IsCast(c, k) && Core(k, x, t) && AllMute(c, k, x)
    && forall j :: 0 <= j < |k.xs| ==> Looks(k, x, k.xs[j], SeeM(c, k, said, j))
  }

  /** The earliest hears `n` messages from one of the other two and says `r.out`. */
  lemma EarliestHears(c: Contest, k: Cast, t: Trio, said: seq<Event>, u: Addr, n: nat, x: Net, r: Response)
      returns (ms: seq<Move>, y: Net)
    requires SaidBy(c, k, t, said, x) && (u == k.b || u == k.d) && n <= |if u == k.b then t.bm else t.dm|
    requires r == Talk(c, k.m, t.leadM, t.acksM, (if u == k.b then t.bm else t.dm)[..n])
    requires t.leadM in c.ts
    ensures CanRun(c, x, ms) && y == Run(c, x, ms) && SaidBy(c, k, NextTrio(k, t, u, k.m, n, r), said + r.out, y)
  {
    hide Link, Talk, Lead, Acks, NetInv, Core, Looks, AllMute, Heard, NextTrio;
    CoreFields(k, x, t);
    ms, y := Hear(c, x, u, k.m, n);
    HubHears(c, k, x, y, u, k.m, n, t, r);
    forall j | 0 <= j < |k.xs| ensures Looks(k, y, k.xs[j], SeeM(c, k, said + r.out, j)) {
      HubHeardBy(c, k, x, y, u, k.m, n, j, SeeM(c, k, said, j), r);
    }
  }

  lemma EarliestSays(c: Contest, k: Cast)
    requires IsCast(c, k)
    ensures Talk(c, k.m, k.m, 0, [Rq(c, k.b)]) == Response(k.m, 0, [], [Sw(c, k.m)])
    ensures Talk(c, k.m, k.d, 0, [Sw(c, k.m), Ak(c, k.m)]) == Response(k.m, 1, [], [Sw(c, k.m)])
  {
    hide Talk;
    TalkOne(c, k.m, k.m, 0, Rq(c, k.b));
    assert [Sw(c, k.m), Ak(c, k.m)] == [Sw(c, k.m)] + [Ak(c, k.m)];
    TalkNext(c, k.m, k.d, 0, Sw(c, k.m), [Ak(c, k.m)]);
    TalkOne(c, k.m, k.m, 0, Ak(c, k.m));
  }

  lemma AllNamed(c: Contest, k: Cast, n: nat)
    requires IsCast(c, k)
    ensures forall e :: e in Rep(Sw(c, k.d), n) ==> Named(c, e)
    ensures forall e :: e in Rep(Sw(c, k.m), n) ==> Named(c, e)
  { }

  lemma EarliestIsMisled(c: Contest, k: Cast)
    requires IsCast(c, k)
    ensures Talk(c, k.m, k.m, 0, [Rq(c, k.d)] + Said2(c, k, Half(c))) == Response(k.d, 0, [], [Sw(c, k.m)])
  {
    hide Talk, Rep;
    var n := 2 * Half(c);
    AllNamed(c, k, n);
    TalkNext(c, k.m, k.m, 0, Rq(c, k.d), Rep(Sw(c, k.d), n) + [An(c, k.d)]);
    TalkConcat(c, k.m, k.m, 0, Rep(Sw(c, k.d), n), [An(c, k.d)]);
    Ignores(c, k.m, k.m, 0, k.d, n);
    TalkOne(c, k.m, k.m, 0, An(c, k.d));
  }

  /** What the earliest says by the time it has the votes of `i` others. */
  function Said6(c: Contest, k: Cast, i: nat): seq<Event>
    requires IsCast(c, k)
  {
    Rep(Sw(c, k.m), 3 + 3 * i) + if i + 1 >= Half(c) then [An(c, k.m)] else []
  }

  function Trio6(c: Contest, k: Cast, i: nat): Trio
    requires IsCast(c, k)
  {
    Trio4(c, k).(acksM := i + 1, bm := [], dm := [Sw(c, k.b), Ak(c, k.b), Ak(c, k.m)],
                 mb := Said6(c, k, i), md := [Rq(c, k.m)] + Said6(c, k, i))
  }

  function See6(c: Contest, k: Cast, i: nat, j: nat): Seen
    requires IsCast(c, k) && j < |k.xs|
  {
    Seen(k.m, Said6(c, k, i), Said4(c, k), if j < i then [] else Out5(c, k, k.xs[j]), Out5(c, k, k.xs[j]))
  }

  ghost predicate At6(c: Contest, k: Cast, i: nat, x: Net) {
    && AtRest(c, x) && IsCast(c, k) && i + 1 <= Half(c) && Core(k, x, Trio6(c, k, i)) && AllMute(c, k, x)
    && forall j :: 0 <= j < |k.xs| ==> Looks(k, x, k.xs[j], See6(c, k, i, j))
  }

  lemma From5(c: Contest, k: Cast, x: Net)
    requires At5(c, k, |k.xs|, x)
    ensures SaidBy(c, k, Trio4(c, k), [], x)
  {
    hide Link, Core, Looks, AllMute, AtRest;
    forall j | 0 <= j < |k.xs| ensures SeeM(c, k, [], j) == See5(c, k, |k.xs|, j) {
    }
  }

  lemma Trio6Fits(c: Contest, k: Cast, ra: Response, rb: Response, rc: Response)
    requires IsCast(c, k)
    requires ra == Response(k.m, 0, [], [Sw(c, k.m)]) && rb == Response(k.d, 0, [], [Sw(c, k.m)])
    requires rc == Response(k.m, 1, [], [Sw(c, k.m)])
    ensures var n := |Said2(c, k, Half(c))| + 1;
            var ta := NextTrio(k, Trio4(c, k), k.b, k.m, 1, ra);
            var tb := NextTrio(k, ta, k.d, k.m, n, rb);
            && ta.bm == tb.bm == [Sw(c, k.m), Ak(c, k.m)] && ta.leadM == k.m && tb.leadM == k.d
            && ta.acksM == tb.acksM == 0
            && n <= |ta.dm| && ta.dm[..n] == [Rq(c, k.d)] + Said2(c, k, Half(c))
            && NextTrio(k, tb, k.b, k.m, 2, rc) == Trio6(c, k, 0)
    ensures ra.out + rb.out + rc.out == Said6(c, k, 0)
  {
    hide Said2, Half, Out3;
    EnoughOthers(c, k);
    var said := Said2(c, k, Half(c));
    var n := |said| + 1;
    var last := [Sw(c, k.b), Ak(c, k.b), Ak(c, k.m)];
    var dm := [Rq(c, k.d)] + Said4(c, k);
    assert dm == [Rq(c, k.d)] + said + last;
    assert dm[n..] == last && dm[..n] == [Rq(c, k.d)] + said;
    assert [Sw(c, k.m)] + [Sw(c, k.m)] + [Sw(c, k.m)] == Said6(c, k, 0);
    assert [Rq(c, k.m)] + [Sw(c, k.m)] + [Sw(c, k.m)] + [Sw(c, k.m)] == [Rq(c, k.m)] + Said6(c, k, 0);
    var ta := NextTrio(k, Trio4(c, k), k.b, k.m, 1, ra);
    assert Trio4(c, k).bm[1..] == [Sw(c, k.m), Ak(c, k.m)];
    assert ta.dm == dm;
    assert ta.mb == [Sw(c, k.m)];
  }

  lemma Phase6a(c: Contest, k: Cast, x: Net) returns (ms: seq<Move>, y: Net)
    requires At5(c, k, |k.xs|, x)
    ensures CanRun(c, x, ms) && y == Run(c, x, ms) && At6(c, k, 0, y)
  {
    hide Link, Talk, Lead, Acks, NetInv, Core, Looks, AllMute, NextTrio, Said2, Said4, Said6, Trio4, Trio6, Go, CanGo;
    From5(c, k, x);
    EarliestSays(c, k);
    EarliestIsMisled(c, k);
    EnoughOthers(c, k);
    var ra := Talk(c, k.m, k.m, 0, [Rq(c, k.b)]);
    var rb := Talk(c, k.m, k.m, 0, [Rq(c, k.d)] + Said2(c, k, Half(c)));
    var rc := Talk(c, k.m, k.d, 0, [Sw(c, k.m), Ak(c, k.m)]);
    Trio6Fits(c, k, ra, rb, rc);
    Trio4Starts(c, k);
    var n := |Said2(c, k, Half(c))| + 1;
    var p, x1 := EarliestHears(c, k, Trio4(c, k), [], k.b, 1, x, ra);
    var ta := NextTrio(k, Trio4(c, k), k.b, k.m, 1, ra);
    assert [] + ra.out == ra.out;
    var q, x2 := EarliestHears(c, k, ta, ra.out, k.d, n, x1, rb);
    var tb := NextTrio(k, ta, k.d, k.m, n, rb);
    assert tb.bm[..2] == tb.bm;
    var r, x3 := EarliestHears(c, k, tb, ra.out + rb.out, k.b, 2, x2, rc);
    RunOn(c, x, p, q);
    RunOn(c, x, p + q, r);
    ms, y := p + q + r, x3;
    forall j | 0 <= j < |k.xs| ensures Looks(k, y, k.xs[j], See6(c, k, 0, j)) {
      assert SeeM(c, k, Said6(c, k, 0), j) == See6(c, k, 0, j);
    }
  }

  lemma Trio4Starts(c: Contest, k: Cast)
    requires IsCast(c, k)
    ensures var t := Trio4(c, k); t.leadM == k.m && t.acksM == 0 && |t.bm| == 3 && t.bm[..1] == [Rq(c, k.b)]
  { }

  lemma Says6(c: Contest, k: Cast, h: Addr, acks: nat)
    requires IsCast(c, k) && h in k.xs
    ensures Talk(c, k.m, k.m, acks, Out5(c, k, h))
         == Response(k.m, acks + 1, [],
                     [Sw(c, k.m), Sw(c, k.m), Sw(c, k.m)] + if acks + 1 >= Half(c) then [An(c, k.m)] else [])
  {
    hide Talk;
    var e1, e2, e3, e4, e5 := Rq(c, h), Sw(c, k.d), Ak(c, k.d), Sw(c, k.m), Ak(c, k.m);
    assert Out5(c, k, h) == [e1] + ([e2] + ([e3] + ([e4] + [e5])));
    TalkNext(c, k.m, k.m, acks, e1, [e2] + ([e3] + ([e4] + [e5])));
    TalkNext(c, k.m, k.m, acks, e2, [e3] + ([e4] + [e5]));
    TalkNext(c, k.m, k.m, acks, e3, [e4] + [e5]);
    TalkNext(c, k.m, k.m, acks, e4, [e5]);
    TalkOne(c, k.m, k.m, acks, e5);
  }

  lemma MoreSaid6(c: Contest, k: Cast, i: nat, out: seq<Event>)
    requires IsCast(c, k) && i + 1 < Half(c)
    requires out == [Sw(c, k.m), Sw(c, k.m), Sw(c, k.m)] + if i + 2 >= Half(c) then [An(c, k.m)] else []
    ensures Said6(c, k, i) + out == Said6(c, k, i + 1)
    ensures [Rq(c, k.m)] + Said6(c, k, i) + out == [Rq(c, k.m)] + Said6(c, k, i + 1)
  {
    assert Said6(c, k, i) + out == Said6(c, k, i + 1);
  }

  lemma Out5Size(c: Contest, k: Cast, h: Addr)
    requires IsCast(c, k) && h in c.ts
    ensures |Out5(c, k, h)| == 5 && Out5(c, k, h)[..5] == Out5(c, k, h) && Out5(c, k, h)[5..] == []
  { }

  lemma Step6(c: Contest, k: Cast, i: nat, x: Net, y: Net)
    requires At6(c, k, i, x) && i + 1 < Half(c) && i < |k.xs| && AtRest(c, y) && Heard(c, x, y, k.xs[i], k.m, 5)
    ensures At6(c, k, i + 1, y)
  {
    hide Link, Talk, Lead, Acks, NetInv, Core, Looks, AllMute, Said6, Out5, Trio4, Said4;
    var h := k.xs[i];
    CoreFields(k, x, Trio6(c, k, i));
    Trio4Starts(c, k);
    LooksLead(c, k, x, i, See6(c, k, i, i));
    Out5Size(c, k, h);
    Says6(c, k, h, i + 1);
    var r := Talk(c, k.m, k.m, i + 1, Out5(c, k, h));
    MoreSaid6(c, k, i, r.out);
    HubHears(c, k, x, y, h, k.m, 5, Trio6(c, k, i), r);
    assert NextTrio(k, Trio6(c, k, i), h, k.m, 5, r) == Trio6(c, k, i + 1);
    forall j | 0 <= j < |k.xs| ensures Looks(k, y, k.xs[j], See6(c, k, i + 1, j)) {
      HubHeardBy(c, k, x, y, h, k.m, 5, j, See6(c, k, i, j), r);
    }
  }

  lemma {:induction false} Phase6(c: Contest, k: Cast, i: nat, x: Net) returns (ms: seq<Move>, y: Net)
    requires At6(c, k, i, x)
    ensures CanRun(c, x, ms) && y == Run(c, x, ms) && At6(c, k, Half(c) - 1, y)
    decreases Half(c) - i
  {
    hide Link, Lead, Acks, NetInv, Core, AllMute, Trio6, Heard, Go, CanGo, Looks, Half, Out5, Said6, Said4;
    if i + 1 == Half(c) {
      ms, y := [], x;
    } else {
      EnoughOthers(c, k);
      Out5Size(c, k, k.xs[i]);
      LooksLead(c, k, x, i, See6(c, k, i, i));
      var first, x1 := Hear(c, x, k.xs[i], k.m, 5);
      Step6(c, k, i, x, x1);
      var rest, x2 := Phase6(c, k, i + 1, x1);
      RunOn(c, x, first, rest);
      ms, y := first + rest, x2;
    }
  }

  // ----- the others are misled by the third, ack the second, and go back to the earliest without a word

  lemma OtherTakes(c: Contest, k: Cast, x: Net, t: Trio, u: Addr, i: nat, n: nat, s: Seen, r: Response)
      returns (ms: seq<Move>, y: Net)
    requires AtRest(c, x) && IsCast(c, k) && i < |k.xs| && (u == k.m || u == k.d) && s.lead in c.ts
    requires Core(k, x, t) && AllMute(c, k, x) && Looks(k, x, k.xs[i], s)
    requires n <= |if u == k.m then s.fromM else s.fromD|
    requires r == Talk(c, k.xs[i], s.lead, Acks(x, k.xs[i]), (if u == k.m then s.fromM else s.fromD)[..n])
    requires NoNews(r.out)
    ensures CanRun(c, x, ms) && y == Run(c, x, ms) && AtRest(c, y) && Core(k, y, t) && AllMute(c, k, y)
    ensures Looks(k, y, k.xs[i],
                  Seen(r.lead, if u == k.m then s.fromM[n..] else s.fromM, if u == k.d then s.fromD[n..] else s.fromD,
                       s.toM + r.out, s.toB + r.out))
    ensures Acks(y, k.xs[i]) == r.acks
    ensures forall j, s' :: 0 <= j < |k.xs| && j != i && Looks(k, x, k.xs[j], s') ==> Looks(k, y, k.xs[j], s')
  {
    hide Link, Talk, Lead, Acks, NetInv, Core, Looks, AllMute, Heard;
    LooksLead(c, k, x, i, s);
    ms, y := Hear(c, x, u, k.xs[i], n);
    OtherHears(c, k, x, y, u, i, n, s, r);
    forall j, s' | 0 <= j < |k.xs| && j != i && Looks(k, x, k.xs[j], s') ensures Looks(k, y, k.xs[j], s') {
      OtherLooksOn(c, k, x, y, u, i, n, j, s');
    }
  }

  function ToM(c: Contest, k: Cast, j: nat): seq<Event>
    requires IsCast(c, k) && j < |k.xs|
  {
    if j < Half(c) - 1 then [] else Out5(c, k, k.xs[j])
  }

  function See7(c: Contest, k: Cast, i: nat, j: nat): Seen
    requires IsCast(c, k) && j < |k.xs|
  {
    EnoughOthers(c, k);
    if j < i then
      Seen(k.m, [], [Ak(c, k.b), Ak(c, k.m)], ToM(c, k, j) + [Ak(c, k.b)], Out5(c, k, k.xs[j]) + [Ak(c, k.b)])
    else See6(c, k, Half(c) - 1, j)
  }

  ghost predicate At7(c: Contest, k: Cast, i: nat, x: Net) {
    && AtRest(c, x) && IsCast(c, k) && i <= |k.xs| && Half(c) >= 1
    && Core(k, x, Trio6(c, k, Half(c) - 1)) && AllMute(c, k, x)
    && forall j :: 0 <= j < |k.xs| ==> Looks(k, x, k.xs[j], See7(c, k, i, j))
  }

  lemma Says7(c: Contest, k: Cast, h: Addr, acks: nat)
    requires IsCast(c, k) && h in k.xs
    ensures Talk(c, h, k.m, acks, Rep(Sw(c, k.m), 3 * Half(c))) == Response(k.m, acks, [], [])
    ensures Talk(c, h, k.m, acks, Said2(c, k, Half(c)) + [Sw(c, k.b)]) == Response(k.b, 0, [], [Ak(c, k.b)])
    ensures Talk(c, h, k.b, 0, [An(c, k.m)]) == Response(k.m, 0, [], [])
  {
    hide Talk, Rep;
    var n := 2 * Half(c);
    var sw := Rep(Sw(c, k.d), n);
    Ignores(c, h, k.m, acks, k.m, 3 * Half(c));
    Ignores(c, h, k.m, acks, k.d, n);
    AllNamed(c, k, n);
    assert Said2(c, k, Half(c)) + [Sw(c, k.b)] == sw + ([An(c, k.d)] + [Sw(c, k.b)]);
    TalkConcat(c, h, k.m, acks, sw, [An(c, k.d)] + [Sw(c, k.b)]);
    TalkNext(c, h, k.m, acks, An(c, k.d), [Sw(c, k.b)]);
    TalkOne(c, h, k.d, 0, Sw(c, k.b));
    TalkOne(c, h, k.b, 0, An(c, k.m));
  }

  lemma Words(c: Contest, k: Cast)
    requires IsCast(c, k)
    ensures var said := Said6(c, k, Half(c) - 1);
            var n := 3 * Half(c);
            |said| == n + 1 && said[..n] == Rep(Sw(c, k.m), n) && said[n..] == [An(c, k.m)]
    ensures var n := 2 * Half(c) + 2;
            && |Said4(c, k)| == n + 2 && Said4(c, k)[..n] == Said2(c, k, Half(c)) + [Sw(c, k.b)]
            && Said4(c, k)[n..] == [Ak(c, k.b), Ak(c, k.m)]
    ensures [An(c, k.m)][..1] == [An(c, k.m)] && [An(c, k.m)][1..] == []
  {
    assert Said4(c, k) == (Said2(c, k, Half(c)) + [Sw(c, k.b)]) + [Ak(c, k.b), Ak(c, k.m)];
  }

  lemma Step7(c: Contest, k: Cast, i: nat, x: Net) returns (ms: seq<Move>, y: Net)
    requires At7(c, k, i, x) && i < |k.xs|
    ensures CanRun(c, x, ms) && y == Run(c, x, ms) && At7(c, k, i + 1, y)
  {
    hide Link, Talk, Lead, Acks, NetInv, Core, Looks, AllMute, Go, CanGo, Said6, Said4, Said2, Trio6, Out5, Rep;
    var h := k.xs[i];
    var t := Trio6(c, k, Half(c) - 1);
    EnoughOthers(c, k);
    Words(c, k);
    var s := See7(c, k, i, i);
    var n, d := 3 * Half(c), 2 * Half(c) + 2;
    Says7(c, k, h, Acks(x, h));
    var p, x1 := OtherTakes(c, k, x, t, k.m, i, n, s, Response(k.m, Acks(x, h), [], []));
    assert s.toM + [] == s.toM && s.toB + [] == s.toB;
    var s1 := Seen(k.m, [An(c, k.m)], s.fromD, s.toM, s.toB);
    var q, x2 := OtherTakes(c, k, x1, t, k.d, i, d, s1, Response(k.b, 0, [], [Ak(c, k.b)]));
    var s2 := Seen(k.b, [An(c, k.m)], [Ak(c, k.b), Ak(c, k.m)], s.toM + [Ak(c, k.b)], s.toB + [Ak(c, k.b)]);
    var r, x3 := OtherTakes(c, k, x2, t, k.m, i, 1, s2, Response(k.m, 0, [], []));
    assert s2.toM + [] == s2.toM && s2.toB + [] == s2.toB;
    RunOn(c, x, p, q);
    RunOn(c, x, p + q, r);
    ms, y := p + q + r, x3;
    forall j | 0 <= j < |k.xs| && j != i ensures Looks(k, y, k.xs[j], See7(c, k, i + 1, j)) {
      assert See7(c, k, i, j) == See7(c, k, i + 1, j);
      assert Looks(k, x, k.xs[j], See7(c, k, i, j));
    }
  }

  lemma {:induction false} Phase7(c: Contest, k: Cast, i: nat, x: Net) returns (ms: seq<Move>, y: Net)
    requires At7(c, k, i, x)
    ensures CanRun(c, x, ms) && y == Run(c, x, ms) && At7(c, k, |k.xs|, y)
    decreases |k.xs| - i
  {
    hide Link, Lead, Acks, NetInv, Core, AllMute, Trio6, Go, CanGo, Looks, See7;
    if i == |k.xs| {
      ms, y := [], x;
    } else {
      var first, x1 := Step7(c, k, i, x);
      var rest, x2 := Phase7(c, k, i + 1, x1);
      RunOn(c, x, first, rest);
      ms, y := first + rest, x2;
    }
  }

  lemma From6To7(c: Contest, k: Cast, x: Net)
    requires Half(c) >= 1 && At6(c, k, Half(c) - 1, x)
    ensures At7(c, k, 0, x)
  {
    hide Link, Core, Looks, AllMute, AtRest, Trio6, See6, Half;
  }

  // ----- the second earliest catches up and is misled by the third

  function Trio8(c: Contest, k: Cast, i: nat): Trio
    requires IsCast(c, k)
  {
    EnoughOthers(c, k);
    Trio6(c, k, Half(c) - 1).(mb := [An(c, k.m)], bm := Rep(Sw(c, k.m), 3 * i),
                                bd := [Ak(c, k.m)] + Rep(Sw(c, k.m), 3 * i))
  }

  function See8(c: Contest, k: Cast, i: nat, j: nat): Seen
    requires IsCast(c, k) && j < |k.xs|
  {
    See7(c, k, |k.xs|, j).(toB := (if j < i then [] else Out5(c, k, k.xs[j])) + [Ak(c, k.b)])
  }

  ghost predicate At8(c: Contest, k: Cast, i: nat, x: Net) {
    && AtRest(c, x) && IsCast(c, k) && i <= |k.xs| && Core(k, x, Trio8(c, k, i)) && AllMute(c, k, x)
    && forall j :: 0 <= j < |k.xs| ==> Looks(k, x, k.xs[j], See8(c, k, i, j))
  }

  /** The second hears something and says nothing of itself. */
  lemma SecondHears(c: Contest, k: Cast, x: Net, t: Trio, u: Addr, n: nat, r: Response) returns (ms: seq<Move>, y: Net)
    requires AtRest(c, x) && IsCast(c, k) && u in c.ts && u != k.b && t.leadB in c.ts && n <= |Link(x, u, k.b)|
    requires Core(k, x, t) && AllMute(c, k, x) && NoNews(r.out)
    requires r == Talk(c, k.b, t.leadB, t.acksB, Link(x, u, k.b)[..n])
    ensures CanRun(c, x, ms) && y == Run(c, x, ms) && AtRest(c, y) && AllMute(c, k, y)
    ensures Core(k, y, NextTrio(k, t, u, k.b, n, r))
    ensures forall j, s :: 0 <= j < |k.xs| && Looks(k, x, k.xs[j], s) ==>
              Looks(k, y, k.xs[j], s.(toB := if u == k.xs[j] && n <= |s.toB| then s.toB[n..] else s.toB))
  {
    hide Link, Talk, Lead, Acks, NetInv, Core, AllMute, Heard, NextTrio;
    CoreFields(k, x, t);
    ms, y := Hear(c, x, u, k.b, n);
    HubHears(c, k, x, y, u, k.b, n, t, r);
    forall j, s | 0 <= j < |k.xs| && Looks(k, x, k.xs[j], s)
      ensures Looks(k, y, k.xs[j], s.(toB := if u == k.xs[j] && n <= |s.toB| then s.toB[n..] else s.toB))
    {
      HubHeardBy(c, k, x, y, u, k.b, n, j, s, r);
    }
  }

  lemma From7To8(c: Contest, k: Cast, x: Net) returns (ms: seq<Move>, y: Net)
    requires At7(c, k, |k.xs|, x)
    ensures CanRun(c, x, ms) && y == Run(c, x, ms) && At8(c, k, 0, y)
  {
    hide Link, Talk, Lead, Acks, NetInv, Core, Looks, AllMute, Trio6, Trio8, NextTrio, Rep, Half, See7, Said6;
    EnoughOthers(c, k);
    Words(c, k);
    var t := Trio6(c, k, Half(c) - 1);
    CoreFields(k, x, t);
    Ignores(c, k.b, k.m, 0, k.m, 3 * Half(c));
    var r := Response(k.m, 0, [], []);
    Trio8Starts(c, k);
    ms, y := SecondHears(c, k, x, t, k.m, 3 * Half(c), r);
    forall j | 0 <= j < |k.xs| ensures Looks(k, y, k.xs[j], See8(c, k, 0, j)) {
      var s := See7(c, k, |k.xs|, j);
      ToB7(c, k, j);
      assert Looks(k, x, k.xs[j], s);
    }
  }

  lemma ToB7(c: Contest, k: Cast, j: nat)
    requires IsCast(c, k) && j < |k.xs|
    ensures var s := See7(c, k, |k.xs|, j); s.(toB := s.toB) == See8(c, k, 0, j) && k.xs[j] != k.m
  {
    hide Out5;
  }

  lemma Trio8Starts(c: Contest, k: Cast)
    requires IsCast(c, k)
    ensures 1 <= Half(c)
    ensures var t := Trio6(c, k, Half(c) - 1);
            && t.leadB == k.m && t.acksB == 0 && t.mb == Said6(c, k, Half(c) - 1)
            && NextTrio(k, t, k.m, k.b, 3 * Half(c), Response(k.m, 0, [], [])) == Trio8(c, k, 0)
  {
    hide Said6, Said4, Trio4, Rep, Half;
    EnoughOthers(c, k);
    Words(c, k);
    Trio4Leads(c, k);
    NoSwitchesYet(c, k);
  }

  lemma NoSwitchesYet(c: Contest, k: Cast)
    requires IsCast(c, k)
    ensures Rep(Sw(c, k.m), 3 * 0) == [] && [Ak(c, k.m)] + Rep(Sw(c, k.m), 3 * 0) == [Ak(c, k.m)]
    ensures Trio8(c, k, 0).bd + [] == [Ak(c, k.m)]
  { }

  lemma Trio4Leads(c: Contest, k: Cast)
    requires IsCast(c, k)
    ensures var t := Trio4(c, k);
            t.leadM == k.m && t.leadB == k.m && t.leadD == k.m && t.acksB == 0 && t.bd == [Ak(c, k.m)]
            && t.db == [Rq(c, k.d)] + Said4(c, k)
  { }

  lemma Says8(c: Contest, k: Cast, h: Addr)
    requires IsCast(c, k) && h in k.xs
    ensures Talk(c, k.b, k.m, 0, Out5(c, k, h)) == Response(k.m, 0, [], [Sw(c, k.m), Sw(c, k.m), Sw(c, k.m)])
  {
    hide Talk;
    var e1, e2, e3, e4, e5 := Rq(c, h), Sw(c, k.d), Ak(c, k.d), Sw(c, k.m), Ak(c, k.m);
    assert Out5(c, k, h) == [e1] + ([e2] + ([e3] + ([e4] + [e5])));
    TalkNext(c, k.b, k.m, 0, e1, [e2] + ([e3] + ([e4] + [e5])));
    TalkNext(c, k.b, k.m, 0, e2, [e3] + ([e4] + [e5]));
    TalkNext(c, k.b, k.m, 0, e3, [e4] + [e5]);
    TalkNext(c, k.b, k.m, 0, e4, [e5]);
    TalkOne(c, k.b, k.m, 0, e5);
  }

  lemma MoreSwitches(c: Contest, k: Cast, i: nat)
    requires IsCast(c, k)
    ensures var three := [Sw(c, k.m), Sw(c, k.m), Sw(c, k.m)];
            && Rep(Sw(c, k.m), 3 * i) + three == Rep(Sw(c, k.m), 3 * (i + 1))
            && [Ak(c, k.m)] + Rep(Sw(c, k.m), 3 * i) + three == [Ak(c, k.m)] + Rep(Sw(c, k.m), 3 * (i + 1))
  {
    assert Rep(Sw(c, k.m), 3 * i) + [Sw(c, k.m), Sw(c, k.m), Sw(c, k.m)] == Rep(Sw(c, k.m), 3 * (i + 1));
  }

  lemma Trio8Fits(c: Contest, k: Cast, i: nat, h: Addr)
    requires IsCast(c, k) && h in k.xs
    ensures NextTrio(k, Trio8(c, k, i), h, k.b, 5, Response(k.m, 0, [], [Sw(c, k.m), Sw(c, k.m), Sw(c, k.m)]))
         == Trio8(c, k, i + 1)
    ensures Trio8(c, k, i).leadB == k.m && Trio8(c, k, i).acksB == 0
  {
    hide Said6, Said4, Rep, Half, Said2, Trio4;
    EnoughOthers(c, k);
    Trio4Leads(c, k);
    MoreSwitches(c, k, i);
  }

  lemma ToB8(c: Contest, k: Cast, i: nat, j: nat)
    requires IsCast(c, k) && i < |k.xs| && j < |k.xs|
    ensures var s := See8(c, k, i, j);
            s.(toB := if k.xs[i] == k.xs[j] && 5 <= |s.toB| then s.toB[5..] else s.toB) == See8(c, k, i + 1, j)
    ensures i == j ==> 5 <= |See8(c, k, i, j).toB| && See8(c, k, i, j).toB[..5] == Out5(c, k, k.xs[i])
  {
    hide See7, Out5;
    Out5Size(c, k, k.xs[j]);
    var out := Out5(c, k, k.xs[j]);
    assert (out + [Ak(c, k.b)])[..5] == out[..5];
    assert (out + [Ak(c, k.b)])[5..] == [] + [Ak(c, k.b)];
  }

  lemma Step8(c: Contest, k: Cast, i: nat, x: Net) returns (ms: seq<Move>, y: Net)
    requires At8(c, k, i, x) && i < |k.xs|
    ensures CanRun(c, x, ms) && y == Run(c, x, ms) && At8(c, k, i + 1, y)
  {
    hide Link, Talk, Lead, Acks, NetInv, Core, Looks, AllMute, NextTrio, Trio8, See8, Out5;
    var h := k.xs[i];
    LooksLead(c, k, x, i, See8(c, k, i, i));
    ToB8(c, k, i, i);
    Says8(c, k, h);
    Trio8Fits(c, k, i, h);
    var r := Response(k.m, 0, [], [Sw(c, k.m), Sw(c, k.m), Sw(c, k.m)]);
    ms, y := SecondHears(c, k, x, Trio8(c, k, i), h, 5, r);
    forall j | 0 <= j < |k.xs| ensures Looks(k, y, k.xs[j], See8(c, k, i + 1, j)) {
      ToB8(c, k, i, j);
      assert Looks(k, x, k.xs[j], See8(c, k, i, j));
    }
  }

  lemma {:induction false} Phase8(c: Contest, k: Cast, i: nat, x: Net) returns (ms: seq<Move>, y: Net)
    requires At8(c, k, i, x)
    ensures CanRun(c, x, ms) && y == Run(c, x, ms) && At8(c, k, |k.xs|, y)
    decreases |k.xs| - i
  {
    hide Link, Lead, Acks, NetInv, Core, AllMute, Trio8, Go, CanGo, Looks, See8;
    if i == |k.xs| {
      ms, y := [], x;
    } else {
      var first, x1 := Step8(c, k, i, x);
      var rest, x2 := Phase8(c, k, i + 1, x1);
      RunOn(c, x, first, rest);
      ms, y := first + rest, x2;
    }
  }

  /** The second stands again and has one vote; what will give it a quorum and what will lead it back are on
      their connections. */
  ghost predicate At9(c: Contest, k: Cast, x: Net) {
    && AtRest(c, x) && IsCast(c, k) && AllMute(c, k, x)
    && Lead(x, k.m) == Lead(x, k.d) == k.m && Lead(x, k.b) == k.b && Acks(x, k.b) == 1
    && Link(x, k.m, k.b) == [An(c, k.m)] && Link(x, k.d, k.b) == [Ak(c, k.m)]
    && NoLoser(k.m, Link(x, k.m, k.d)) && NoLoser(k.m, Link(x, k.d, k.m))
    && forall j :: 0 <= j < |k.xs| ==>
         && Lead(x, k.xs[j]) == k.m && Link(x, k.xs[j], k.b) == [Ak(c, k.b)]
         && NoLoser(k.m, Link(x, k.m, k.xs[j])) && NoLoser(k.m, Link(x, k.d, k.xs[j]))
  }

  lemma SecondIsMisled(c: Contest, k: Cast)
    requires IsCast(c, k)
    ensures Talk(c, k.b, k.m, 0, [Rq(c, k.d)] + (Said2(c, k, Half(c)) + [Sw(c, k.b), Ak(c, k.b)]))
         == Response(k.b, 1, [], [Sw(c, k.m), Sw(c, k.b)])
    ensures NoNews([Sw(c, k.m), Sw(c, k.b)])
  {
    hide Talk, Rep;
    EnoughOthers(c, k);
    var n := 2 * Half(c);
    var sw := Rep(Sw(c, k.d), n);
    var rest := [An(c, k.d)] + ([Sw(c, k.b)] + [Ak(c, k.b)]);
    AllNamed(c, k, n);
    assert Said2(c, k, Half(c)) + [Sw(c, k.b), Ak(c, k.b)] == sw + rest;
    TalkNext(c, k.b, k.m, 0, Rq(c, k.d), sw + rest);
    Ignores(c, k.b, k.m, 0, k.d, n);
    TalkConcat(c, k.b, k.m, 0, sw, rest);
    TalkNext(c, k.b, k.m, 0, An(c, k.d), [Sw(c, k.b)] + [Ak(c, k.b)]);
    TalkNext(c, k.b, k.d, 0, Sw(c, k.b), [Ak(c, k.b)]);
    TalkOne(c, k.b, k.b, 0, Ak(c, k.b));
  }

  lemma AllButTheLast(c: Contest, k: Cast)
    requires IsCast(c, k)
    ensures var db := Trio8(c, k, |k.xs|).db;
            && |db| >= 1 && db[..|db| - 1] == [Rq(c, k.d)] + (Said2(c, k, Half(c)) + [Sw(c, k.b), Ak(c, k.b)])
            && db[|db| - 1..] == [Ak(c, k.m)]
    ensures var t := Trio8(c, k, |k.xs|);
            && t.leadM == t.leadB == t.leadD == k.m && t.acksB == 0 && t.mb == [An(c, k.m)]
            && t.dm == [Sw(c, k.b), Ak(c, k.b), Ak(c, k.m)] && NoLoser(k.m, t.md)
  {
    hide Said2, Half, Rep;
    EnoughOthers(c, k);
    var db := [Rq(c, k.d)] + (Said2(c, k, Half(c)) + [Sw(c, k.b), Ak(c, k.b), Ak(c, k.m)]);
    assert db == [Rq(c, k.d)] + (Said2(c, k, Half(c)) + [Sw(c, k.b), Ak(c, k.b)]) + [Ak(c, k.m)];
    AllSwitches(c, k, 3 + 3 * (Half(c) - 1));
  }

  lemma AllSwitches(c: Contest, k: Cast, n: nat)
    requires IsCast(c, k)
    ensures forall e :: e in Rep(Sw(c, k.m), n) ==> e == Sw(c, k.m)
  { }

  lemma See8Fields(c: Contest, k: Cast, j: nat)
    requires IsCast(c, k) && j < |k.xs|
    ensures var s := See8(c, k, |k.xs|, j);
            && s.lead == k.m && s.fromM == [] && s.fromD == [Ak(c, k.b), Ak(c, k.m)] && s.toB == [Ak(c, k.b)]
  {
    assert [] + [Ak(c, k.b)] == [Ak(c, k.b)];
  }

  lemma From8To9(c: Contest, k: Cast, x: Net) returns (ms: seq<Move>, y: Net)
    requires At8(c, k, |k.xs|, x)
    ensures CanRun(c, x, ms) && y == Run(c, x, ms) && At9(c, k, y)
  {
    hide Link, Talk, Lead, Acks, NetInv, Core, Looks, AllMute, Trio8, See8, Said2;
    var t := Trio8(c, k, |k.xs|);
    CoreFields(k, x, t);
    AllButTheLast(c, k);
    SecondIsMisled(c, k);
    var r := Response(k.b, 1, [], [Sw(c, k.m), Sw(c, k.b)]);
    var n: nat := |t.db| - 1;
    ms, y := SecondHears(c, k, x, t, k.d, n, r);
    CoreFields(k, y, NextTrio(k, t, k.d, k.b, n, r));
    forall j | 0 <= j < |k.xs|
      ensures Lead(y, k.xs[j]) == k.m && Link(y, k.xs[j], k.b) == [Ak(c, k.b)]
      ensures NoLoser(k.m, Link(y, k.m, k.xs[j])) && NoLoser(k.m, Link(y, k.d, k.xs[j]))
    {
      var s := See8(c, k, |k.xs|, j);
      See8Fields(c, k, j);
      assert Looks(k, x, k.xs[j], s);
      LooksLead(c, k, y, j, s.(toB := s.toB));
    }
  }
}
