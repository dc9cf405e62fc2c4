/** Runs of the queues in which every host handles at once what arrives, its own messages first. They are
    described by what is on each connection; with them a race can always be completed well. */
module Prompt {
  import opened Types
  import opened QuorumStep
  import opened Wire
  import opened Race
  import opened Cascade
  import opened Earliest
  import opened Queues
  import opened SmallRaces

  /** Nothing waits in any host's own queue. */
  ghost predicate AtRest(c: Contest, x: Net) {
    NetInv(c, x) && x.inbox == []
  }

  ghost predicate Named(c: Contest, e: Event) {
    match e
    case LeaderReq(x, t) => Names(c, x, t)
    case LeaderReqAck(x, t) => Names(c, x, t)
    case LeaderSwitchPriority(x, t) => Names(c, x, t)
    case LeaderAck(x, t) => Names(c, x, t)
    case _ => false
  }

  /** The response to an event together with that to what the host sends itself on it. */
  function Reply(c: Contest, a: Addr, lead: Addr, acks: nat, e: Event): Response
    requires lead in c.ts && a in c.ts
  {
    var r := Respond(c, a, lead, acks, e);
    if r.own == [] || r.lead !in c.ts then r
    else
      var s := Respond(c, a, r.lead, r.acks, r.own[0]);
      Response(s.lead, s.acks, s.own, r.out + s.out)
  }

  lemma ReplyIsComplete(c: Contest, a: Addr, lead: Addr, acks: nat, e: Event)
    requires lead in c.ts && a in c.ts && Named(c, e)
    ensures Reply(c, a, lead, acks, e).own == [] && Reply(c, a, lead, acks, e).lead in c.ts
    ensures var r := Respond(c, a, lead, acks, e);
            r.own == [] || (r.own == [r.own[0]] && r.lead in c.ts && Respond(c, a, r.lead, r.acks, r.own[0]).own == [])
  { }

  /** The first message from `u` is taken by `a`. */
  ghost predicate Took(c: Contest, x: Net, y: Net, u: Addr, a: Addr) {
    && u in c.ts && a in c.ts && Lead(x, a) in c.ts && Link(x, u, a) != []
    && var r := Reply(c, a, Lead(x, a), Acks(x, a), Link(x, u, a)[0]);
    && Lead(y, a) == r.lead && Acks(y, a) == r.acks
    && (forall p :: p != a ==> Lead(y, p) == Lead(x, p) && Acks(y, p) == Acks(x, p))
    && (forall p, q :: p in c.ts && q in c.ts && p != q ==>
          Link(y, p, q) == (if p == u && q == a then Rest(Link(x, p, q)) else Link(x, p, q))
                           + (if p == a then r.out else []))
  }

  lemma {:induction false} FirstOn(s: seq<Envelope>, u: Addr, a: Addr) returns (i: nat)
    requires On(s, u, a) != []
    ensures i < |s| && s[i].from == u && s[i].to == a && s[i].event == On(s, u, a)[0]
    ensures forall k :: 0 <= k < i ==> !SameLink(s[k], s[i])
  {
    if s[0].from == u && s[0].to == a {
      i := 0;
    } else {
      var j := FirstOn(s[1..], u, a);
      i := j + 1;
      assert forall k :: 0 < k < i ==> s[k] == s[1..][k - 1];
    }
  }

  lemma LeadInRace(c: Contest, x: Net, a: Addr)
    requires NetInv(c, x) && a in c.ts
    ensures Lead(x, a) in c.ts && a in x.nodes && ValidContest(c)
  {
    hide LeaderAddr, Contestant;
    ContestantLeader(c, a, x.nodes[a]);
  }

  /** What a host puts into its own queue. */
  function Wrap(a: Addr, es: seq<Event>): seq<Envelope> {
    if es == [] then [] else [Envelope(a, a, es[0])] + Wrap(a, es[1..])
  }

  lemma {:induction false} SelfExact(s: seq<Envelope>, a: Addr)
    requires forall v :: v in s ==> v.from == a && v.to == a
    ensures s == Wrap(a, On(s, a, a))
  {
    if s == [] {
    } else {
      SelfExact(s[1..], a);
      assert s[0] in s;
      var es := On(s[1..], a, a);
      assert ([s[0].event] + es)[1..] == es;
      assert s == [Envelope(a, a, s[0].event)] + Wrap(a, es);
    }
  }

  /** The first message in the queues is handled. */
  lemma HandleFirst(c: Contest, x: Net) returns (y: Net)
    requires NetInv(c, x) && x.inbox != []
    ensures CanRun(c, x, [Handle(0)]) && y == Run(c, x, [Handle(0)]) && NetInv(c, y)
    ensures var v := x.inbox[0];
            && Handled(c, x, y, v.from, v.to, v.event)
            && y.inbox == x.inbox[1..] + Wrap(v.to, Respond(c, v.to, Lead(x, v.to), Acks(x, v.to), v.event).own)
  {
    hide Step, RouteAll, Respond, On;
    var v := x.inbox[0];
    ToInRace(c, Bag(x), 0);
    assert CanGo(x, Handle(0));
    HandlerInRace(c, x, 0);
    HandleEffect(c, x, 0);
    GoKeepsInv(c, x, Handle(0));
    RunOne(c, x, Handle(0));
    y := Go(c, x, Handle(0));
    var sent := Sent(c, x.nodes[v.to], v);
    SentFrom(c, x.nodes[v.to], v);
    SplitKeepsAll(sent, v.to);
    OnSplit(sent, v.to, v.to, v.to);
    Responds(c, x.nodes[v.to], v, v.to);
    SelfExact(To(sent, v.to), v.to);
    assert Without(x.inbox, 0) == x.inbox[1..];
  }

  /** The first message from `u` arrives. */
  lemma ArriveFirst(c: Contest, x: Net, u: Addr, a: Addr) returns (i: nat, y: Net)
    requires NetInv(c, x) && On(x.wire, u, a) != []
    requires forall v :: v in x.inbox ==> !v.event.LeaderReq?
    ensures CanRun(c, x, [Arrive(i)]) && y == Run(c, x, [Arrive(i)]) && NetInv(c, y)
    ensures y.inbox == x.inbox + [Envelope(u, a, On(x.wire, u, a)[0])] && SameLinks(c, x, y)
    ensures forall p, q :: On(y.wire, p, q) == if p == u && q == a then Rest(On(x.wire, p, q)) else On(x.wire, p, q)
  {
    hide NetInv, On;
    i := FirstOn(x.wire, u, a);
    ArriveEffect(c, x, i);
    GoKeepsInv(c, x, Arrive(i));
    RunOne(c, x, Arrive(i));
    y := Go(c, x, Arrive(i));
    assert x.wire[i] == Envelope(x.wire[i].from, x.wire[i].to, x.wire[i].event);
    forall p, q
      ensures On(y.wire, p, q) == if p == u && q == a then Rest(On(x.wire, p, q)) else On(x.wire, p, q)
    {
      OnWithout(x.wire, i, p, q);
      assert [] + On(y.wire, p, q) == On(y.wire, p, q);
    }
  }

  lemma LinkAtRest(c: Contest, x: Net)
    requires AtRest(c, x)
    ensures forall p, q :: Link(x, p, q) == On(x.wire, p, q)
  {
    hide NetInv, On;
    assert x.inbox + x.wire == x.wire;
  }

  lemma ProperIsNamed(c: Contest, x: Net, u: Addr, a: Addr)
    requires NetInv(c, x)
    ensures forall e :: e in Link(x, u, a) ==> Named(c, e) && u in c.ts && a in c.ts
  {
    hide Link, NetInv;
    forall e | e in Link(x, u, a) ensures Named(c, e) && u in c.ts && a in c.ts {
      LinkProper(c, x, u, a, e);
    }
  }

  lemma HandledLead(c: Contest, x: Net, x1: Net, x2: Net, u: Addr, a: Addr, e: Event)
    requires SameLinks(c, x, x1) && Handled(c, x1, x2, u, a, e)
    ensures Lead(x, a) in c.ts && a in c.ts
    ensures var r := Respond(c, a, Lead(x, a), Acks(x, a), e); Lead(x2, a) == r.lead && Acks(x2, a) == r.acks
  {
    hide Link, Lead, Acks, Respond;
  }

  lemma TookPlainly(c: Contest, x: Net, x1: Net, y: Net, u: Addr, a: Addr, e: Event)
    requires u in c.ts && a in c.ts && u != a && Lead(x, a) in c.ts && Link(x, u, a) != [] && Link(x, u, a)[0] == e
    requires SameLinks(c, x, x1) && Handled(c, x1, y, u, a, e)
    requires Respond(c, a, Lead(x, a), Acks(x, a), e).own == []
    ensures Took(c, x, y, u, a)
  {
    hide Link, Lead, Acks, Respond;
  }

  lemma TookTwice(c: Contest, x: Net, x1: Net, x2: Net, y: Net, u: Addr, a: Addr, e: Event)
    requires u in c.ts && a in c.ts && u != a && Lead(x, a) in c.ts && Link(x, u, a) != [] && Link(x, u, a)[0] == e
    requires SameLinks(c, x, x1) && Handled(c, x1, x2, u, a, e)
    requires var r := Respond(c, a, Lead(x, a), Acks(x, a), e);
             r.own != [] && r.lead in c.ts && Handled(c, x2, y, a, a, r.own[0])
    ensures Took(c, x, y, u, a)
  {
    hide Link, Lead, Acks, Respond;
    var r := Respond(c, a, Lead(x, a), Acks(x, a), e);
    var s := Respond(c, a, r.lead, r.acks, r.own[0]);
    assert Reply(c, a, Lead(x, a), Acks(x, a), e) == Response(s.lead, s.acks, s.own, r.out + s.out);
    forall p, q | p in c.ts && q in c.ts && p != q
      ensures Link(y, p, q) == (if p == u && q == a then Rest(Link(x, p, q)) else Link(x, p, q))
                               + (if p == a then r.out + s.out else [])
    {
      var before := if p == u && q == a then Rest(Link(x, p, q)) else Link(x, p, q);
      assert before + [] + [] == before + [];
      assert before + r.out + s.out == before + (r.out + s.out);
    }
  }

  lemma TakeFirst(c: Contest, x: Net, u: Addr, a: Addr) returns (ms: seq<Move>, y: Net)
    requires AtRest(c, x) && u != a && Link(x, u, a) != []
    ensures CanRun(c, x, ms) && y == Run(c, x, ms) && AtRest(c, y) && ms != []
    ensures Took(c, x, y, u, a)
  {
    hide NetInv, Link, Run, CanRun, Respond, To, On, Named, Lead, Acks, Handled, Took, Reply;
    ProperIsNamed(c, x, u, a);
    var e := Link(x, u, a)[0];
    assert e in Link(x, u, a);
    LeadInRace(c, x, a);
    ReplyIsComplete(c, a, Lead(x, a), Acks(x, a), e);
    LinkAtRest(c, x);
    var i, x1 := ArriveFirst(c, x, u, a);
    assert x.inbox + [Envelope(u, a, e)] == [Envelope(u, a, e)];
    var x2 := HandleFirst(c, x1);
    RunOn(c, x, [Arrive(i)], [Handle(0)]);
    ms := [Arrive(i)] + [Handle(0)];
    WrapFew(a, Respond(c, a, Lead(x, a), Acks(x, a), e).own);
    if x2.inbox == [] {
      y := x2;
      TookPlainly(c, x, x1, y, u, a, e);
    } else {
      assert x2.inbox == [Envelope(a, a, Respond(c, a, Lead(x, a), Acks(x, a), e).own[0])];
      HandledLead(c, x, x1, x2, u, a, e);
      var x3 := HandleFirst(c, x2);
      RunOn(c, x, ms, [Handle(0)]);
      ms := ms + [Handle(0)];
      y := x3;
      TookTwice(c, x, x1, x2, y, u, a, e);
    }
  }

  lemma WrapFew(a: Addr, es: seq<Event>)
    ensures Wrap(a, []) == []
    ensures |es| == 1 ==> Wrap(a, es) == [Envelope(a, a, es[0])]
  { }

  // ----- hearing several messages of one connection

  /** The replies to a sequence of events. */
  function Talk(c: Contest, a: Addr, lead: Addr, acks: nat, es: seq<Event>): Response
    requires lead in c.ts && a in c.ts
    decreases |es|
  {
    if es == [] then Response(lead, acks, [], [])
    else
      var r := Reply(c, a, lead, acks, es[0]);
      if r.lead !in c.ts then r
      else
        var s := Talk(c, a, r.lead, r.acks, es[1..]);
        Response(s.lead, s.acks, s.own, r.out + s.out)
  }

  /** From `x` to `y`, `a` has taken the first `k` messages from `u`. */
  ghost predicate Heard(c: Contest, x: Net, y: Net, u: Addr, a: Addr, k: nat) {
    && u in c.ts && a in c.ts && Lead(x, a) in c.ts && k <= |Link(x, u, a)|
    && var r := Talk(c, a, Lead(x, a), Acks(x, a), Link(x, u, a)[..k]);
    && Lead(y, a) == r.lead && Acks(y, a) == r.acks
    && (forall p :: p != a ==> Lead(y, p) == Lead(x, p) && Acks(y, p) == Acks(x, p))
    && (forall p, q :: p in c.ts && q in c.ts && p != q ==>
          Link(y, p, q) == (if p == u && q == a then Link(x, p, q)[k..] else Link(x, p, q))
                           + (if p == a then r.out else []))
  }

  lemma HeardNothing(c: Contest, x: Net, u: Addr, a: Addr)
    requires AtRest(c, x) && u in c.ts && a in c.ts
    ensures Heard(c, x, x, u, a, 0)
  {
    hide Link, NetInv;
    LeadInRace(c, x, a);
    forall p, q | p in c.ts && q in c.ts && p != q
      ensures Link(x, p, q) == (if p == u && q == a then Link(x, p, q)[0..] else Link(x, p, q)) + []
    {
    }
  }

  lemma TalkOn(c: Contest, a: Addr, lead: Addr, acks: nat, es: seq<Event>)
    requires lead in c.ts && a in c.ts && es != []
    ensures var r := Reply(c, a, lead, acks, es[0]);
            r.lead in c.ts ==>
              var s := Talk(c, a, r.lead, r.acks, es[1..]);
              Talk(c, a, lead, acks, es) == Response(s.lead, s.acks, s.own, r.out + s.out)
  {
    hide Reply;
  }

  lemma SeqFacts(s: seq<Event>, a: seq<Event>, b: seq<Event>, k: nat)
    ensures s + [] == s && s + a + b == s + (a + b)
    ensures k + 1 <= |s| ==> Rest(s)[k..] == s[k + 1..]
  { }

  lemma LinkOneMore(c: Contest, x: Net, x1: Net, y: Net, u: Addr, a: Addr, k: nat, p: Addr, q: Addr,
                    r: Response, s: Response)
    requires Took(c, x, x1, u, a) && Heard(c, x1, y, u, a, k) && u != a && p in c.ts && q in c.ts && p != q
    requires r == Reply(c, a, Lead(x, a), Acks(x, a), Link(x, u, a)[0])
    requires s == Talk(c, a, Lead(x1, a), Acks(x1, a), Link(x1, u, a)[..k])
    ensures k + 1 <= |Link(x, u, a)|
    ensures Link(y, p, q) == (if p == u && q == a then Link(x, p, q)[k + 1..] else Link(x, p, q))
                             + (if p == a then r.out + s.out else [])
  {
    hide Link, Reply, Lead, Acks, Talk;
    SeqFacts(Link(x, p, q), r.out, s.out, k);
    SeqFacts(Rest(Link(x, u, a)), [], [], k);
    if p == u && q == a {
      assert Link(x1, p, q) == Rest(Link(x, p, q));
      SeqFacts(Link(x, p, q)[k + 1..], [], [], 0);
    } else if p != a {
      assert Link(x1, p, q) == Link(x, p, q);
    }
  }

  lemma HeardOneMore(c: Contest, x: Net, x1: Net, y: Net, u: Addr, a: Addr, k: nat)
    requires Took(c, x, x1, u, a) && Heard(c, x1, y, u, a, k) && u != a
    ensures Heard(c, x, y, u, a, k + 1)
  {
    hide Link, Reply, Lead, Acks, Talk;
    var link, link1 := Link(x, u, a), Link(x1, u, a);
    assert link1 == Rest(link) + [];
    assert link[..k + 1][1..] == link1[..k];
    TalkOn(c, a, Lead(x, a), Acks(x, a), link[..k + 1]);
    var r := Reply(c, a, Lead(x, a), Acks(x, a), link[0]);
    var s := Talk(c, a, r.lead, r.acks, link1[..k]);
    forall p, q | p in c.ts && q in c.ts && p != q
      ensures Link(y, p, q) == (if p == u && q == a then Link(x, p, q)[k + 1..] else Link(x, p, q))
                               + (if p == a then r.out + s.out else [])
    {
      hide Took, Heard;
      LinkOneMore(c, x, x1, y, u, a, k, p, q, r, s);
    }
  }

  lemma {:induction false} Hear(c: Contest, x: Net, u: Addr, a: Addr, k: nat) returns (ms: seq<Move>, y: Net)
    requires AtRest(c, x) && u in c.ts && a in c.ts && u != a && k <= |Link(x, u, a)|
    ensures CanRun(c, x, ms) && y == Run(c, x, ms) && AtRest(c, y) && |ms| >= k
    ensures Heard(c, x, y, u, a, k)
    decreases k
  {
    hide NetInv, Link, Go, CanGo, Reply, Talk, Heard, Took;
    if k == 0 {
      ms, y := [], x;
      HeardNothing(c, x, u, a);
    } else {
      var first, x1 := TakeFirst(c, x, u, a);
      OneLess(c, x, x1, u, a);
      var rest, x2 := Hear(c, x1, u, a, k - 1);
      RunOn(c, x, first, rest);
      HeardOneMore(c, x, x1, x2, u, a, k - 1);
      ms, y := first + rest, x2;
    }
  }

  lemma OneLess(c: Contest, x: Net, y: Net, u: Addr, a: Addr)
    requires Took(c, x, y, u, a) && u != a
    ensures |Link(y, u, a)| == |Link(x, u, a)| - 1
  {
    hide Link, Reply;
  }

  // ----- completing a race in which everybody follows the earliest

  /** Everybody is led by `m`, and only what `b` has still to say, `last`, can change that. */
  ghost predicate Settled(c: Contest, m: Addr, b: Addr, last: seq<Event>, x: Net) {
    && IsEarliest(c, m) && b in c.ts
    && (forall a :: a in c.ts ==> Lead(x, a) == m)
    && (forall u, q :: u in c.ts && q in c.ts && u != q && u != b ==> NoLoser(m, Link(x, u, q)))
    && (forall q :: q in c.ts && q != b ==> EndsWith(m, Link(x, b, q), last))
    && (last != [] ==> forall u :: u in c.ts && u != b ==> NothingToAnswer(Link(x, u, b)))
  }

  ghost predicate NoLoser(m: Addr, s: seq<Event>) {
    forall e :: e in s && e.LeaderAck? ==> e.addr == m
  }

  ghost predicate NothingToAnswer(s: seq<Event>) {
    forall e :: e in s ==> e.LeaderSwitchPriority? || e.LeaderAck?
  }

  ghost predicate EndsWith(m: Addr, s: seq<Event>, last: seq<Event>) {
    |s| >= |last| && s[|s| - |last|..] == last && NoLoser(m, s[..|s| - |last|])
  }

  lemma SettledReply(c: Contest, m: Addr, a: Addr, acks: nat, e: Event)
    requires IsEarliest(c, m) && a in c.ts && Named(c, e) && (e.LeaderAck? ==> e.addr == m)
    ensures var r := Reply(c, a, m, acks, e);
            && r.lead == m && NoLoser(m, r.out)
            && (e.LeaderSwitchPriority? || e.LeaderAck? ==> r.out == [])
  { }

  lemma EndsWithMore(m: Addr, s: seq<Event>, t: seq<Event>, last: seq<Event>)
    requires EndsWith(m, s, last) && NoLoser(m, t) && (last != [] ==> t == [])
    ensures EndsWith(m, s + t, last)
  {
    if last == [] {
      assert (s + t)[..|s + t|] == s + t && s[..|s|] == s;
    } else {
      assert s + t == s;
    }
  }

  lemma EndsWithRest(m: Addr, s: seq<Event>, last: seq<Event>)
    requires EndsWith(m, s, last) && |s| > |last|
    ensures EndsWith(m, Rest(s), last) && (s[0].LeaderAck? ==> s[0].addr == m)
  {
    assert s[0] in s[..|s| - |last|];
    assert Rest(s)[|Rest(s)| - |last|..] == s[|s| - |last|..];
    assert Rest(s)[..|Rest(s)| - |last|] == s[..|s| - |last|][1..];
  }

  lemma StaysSettled(c: Contest, m: Addr, b: Addr, last: seq<Event>, x: Net, y: Net, u: Addr, a: Addr)
    requires Settled(c, m, b, last, x) && Took(c, x, y, u, a) && u != a
    requires Named(c, Link(x, u, a)[0]) && (u == b ==> |Link(x, u, a)| > |last|)
    ensures Settled(c, m, b, last, y)
  {
    hide Link, Reply, EndsWith, Named;
    var e := Link(x, u, a)[0];
    assert e in Link(x, u, a);
    if u == b { EndsWithRest(m, Link(x, b, a), last); }
    SettledReply(c, m, a, Acks(x, a), e);
    var out := Reply(c, a, m, Acks(x, a), e).out;
    forall p, q | p in c.ts && q in c.ts && p != q && p != b ensures NoLoser(m, Link(y, p, q)) {
    }
    forall q | q in c.ts && q != b ensures EndsWith(m, Link(y, b, q), last) {
      if a == b {
        EndsWithMore(m, Link(x, b, q), out, last);
      } else if u == b && q == a {
        assert Rest(Link(x, b, q)) + [] == Rest(Link(x, b, q));
      } else {
        assert Link(x, b, q) + [] == Link(x, b, q);
      }
    }
    forall p | p in c.ts && p != b && last != [] ensures NothingToAnswer(Link(y, p, b)) {
      if p == a { OwnAnswer(c, m, a, Acks(x, a), e); }
    }
  }

  lemma OwnAnswer(c: Contest, m: Addr, a: Addr, acks: nat, e: Event)
    requires IsEarliest(c, m) && a in c.ts && Named(c, e) && (e.LeaderAck? ==> e.addr == m)
    ensures NothingToAnswer(Reply(c, a, m, acks, e).out)
  { }

  /** Nothing but the last words of `b` is left. */
  ghost predicate OnlyLast(c: Contest, b: Addr, last: seq<Event>, x: Net) {
    forall u, q :: u in c.ts && q in c.ts && u != q ==> Link(x, u, q) == if u == b then last else []
  }

  lemma {:induction false} HearAllElse(c: Contest, m: Addr, b: Addr, last: seq<Event>, x: Net)
      returns (ms: seq<Move>, y: Net)
    requires AtRest(c, x) && Settled(c, m, b, last, x)
    ensures CanRun(c, x, ms) && y == Run(c, x, ms) && AtRest(c, y) && Settled(c, m, b, last, y)
    ensures OnlyLast(c, b, last, y)
    decreases Effort(c, x)
  {
    hide NetInv, Link, Go, CanGo, Reply, Took, Settled, Effort;
    if OnlyLast(c, b, last, x) {
      ms, y := [], x;
    } else {
      var u, q :| u in c.ts && q in c.ts && u != q && Link(x, u, q) != if u == b then last else [];
      SomethingElse(c, m, b, last, x, u, q);
      ProperIsNamed(c, x, u, q);
      var first, x1 := TakeFirst(c, x, u, q);
      StaysSettled(c, m, b, last, x, x1, u, q);
      EveryRunEnds(c, x, first);
      EffortIsNatural(c, x1);
      var rest, x2 := HearAllElse(c, m, b, last, x1);
      RunOn(c, x, first, rest);
      ms, y := first + rest, x2;
    }
  }

  lemma SomethingElse(c: Contest, m: Addr, b: Addr, last: seq<Event>, x: Net, u: Addr, q: Addr)
    requires Settled(c, m, b, last, x) && u in c.ts && q in c.ts && u != q
    requires Link(x, u, q) != if u == b then last else []
    ensures Link(x, u, q) != [] && (u == b ==> |Link(x, u, q)| > |last|)
  {
    hide Link, NoLoser;
    if u == b {
      assert EndsWith(m, Link(x, b, q), last);
      assert Link(x, b, q)[0..] == Link(x, b, q);
    }
  }

  // ----- every race can be completed

  function Request(c: Contest, a: Addr): Event
    requires a in c.ts
  {
    Event.LeaderReq(a, c.ts[a])
  }

  /** The first `i` hosts follow `m`; the others stand, and hear of `m` next on the connection from it. */
  ghost predicate Learning(c: Contest, m: Addr, i: nat, x: Net) {
    && AtRest(c, x) && IsEarliest(c, m) && Lead(x, m) == m && i <= |c.order|
    && (forall k :: 0 <= k < i ==> Lead(x, c.order[k]) == m)
    && (forall k :: i <= k < |c.order| && c.order[k] != m ==>
          && Lead(x, c.order[k]) == c.order[k]
          && Link(x, m, c.order[k]) != [] && Link(x, m, c.order[k])[0] == Request(c, m))
    && (forall u, q :: u in c.ts && q in c.ts && u != q ==> NoLoser(m, Link(x, u, q)))
  }

  lemma Learns(c: Contest, m: Addr, a: Addr, acks: nat)
    requires IsEarliest(c, m) && a in c.ts && a != m
    ensures var r := Reply(c, a, a, acks, Request(c, m)); r.lead == m && NoLoser(m, r.out)
  { }

  lemma StillLearning(c: Contest, m: Addr, i: nat, x: Net, y: Net)
    requires Learning(c, m, i, x) && ValidContest(c) && i < |c.order| && c.order[i] != m
    requires AtRest(c, y) && Took(c, x, y, m, c.order[i])
    ensures Learning(c, m, i + 1, y)
  {
    hide NetInv, Link, Reply, NoLoser;
    var a := c.order[i];
    Learns(c, m, a, Acks(x, a));
    var out := Reply(c, a, a, Acks(x, a), Request(c, m)).out;
    forall u, q | u in c.ts && q in c.ts && u != q ensures NoLoser(m, Link(y, u, q)) {
      LoserIn(m, Link(x, u, q), out);
    }
    forall k | i + 1 <= k < |c.order| && c.order[k] != m
      ensures Lead(y, c.order[k]) == c.order[k]
      ensures Link(y, m, c.order[k]) != [] && Link(y, m, c.order[k])[0] == Request(c, m)
    {
      assert c.order[k] != a;
    }
    forall k | 0 <= k < i + 1 ensures Lead(y, c.order[k]) == m {
      assert k < i ==> c.order[k] != a;
    }
  }

  lemma LoserIn(m: Addr, s: seq<Event>, t: seq<Event>)
    requires NoLoser(m, s)
    ensures NoLoser(m, Rest(s)) && NoLoser(m, s + []) && NoLoser(m, Rest(s) + [])
    ensures NoLoser(m, t) ==> NoLoser(m, s + t) && NoLoser(m, Rest(s) + t)
  { }

  lemma {:induction false} AllLearn(c: Contest, m: Addr, i: nat, x: Net) returns (ms: seq<Move>, y: Net)
    requires Learning(c, m, i, x)
    ensures CanRun(c, x, ms) && y == Run(c, x, ms) && Learning(c, m, |c.order|, y)
    decreases |c.order| - i
  {
    hide NetInv, Link, Go, CanGo, Reply, Took;
    if i == |c.order| {
      ms, y := [], x;
    } else if c.order[i] == m {
      ms, y := AllLearn(c, m, i + 1, x);
    } else {
      LeadInRace(c, x, m);
      var first, x1 := TakeFirst(c, x, m, c.order[i]);
      StillLearning(c, m, i, x, x1);
      var rest, x2 := AllLearn(c, m, i + 1, x1);
      RunOn(c, x, first, rest);
      ms, y := first + rest, x2;
    }
  }

  lemma OwnRequestsOnly(c: Contest, x: Net, u: Addr, q: Addr)
    requires Begins(c, x) && u in c.ts
    ensures forall e :: e in Link(x, u, q) ==> e == Request(c, u)
  {
    hide AllStand, On;
    BeginsInRace(c, x);
    forall e | e in Link(x, u, q) ensures e == Request(c, u) {
      OnMembers(x.inbox + x.wire, u, q, e);
      LinkProper(c, x, u, q, e);
    }
  }

  lemma StartsLearning(c: Contest, m: Addr, x: Net)
    requires Begins(c, x) && x.inbox == [] && IsEarliest(c, m)
    ensures Learning(c, m, 0, x)
  {
    hide Begins, Link, Lead, NetInv;
    BeginsInRace(c, x);
    forall a | a in c.ts ensures Lead(x, a) == a { AllForThemselves(c, x, a); }
    forall u, q | u in c.ts && q in c.ts && u != q ensures NoLoser(m, Link(x, u, q)) {
      OwnRequestsOnly(c, x, u, q);
    }
    forall k | 0 <= k < |c.order| && c.order[k] != m
      ensures Link(x, m, c.order[k]) != [] && Link(x, m, c.order[k])[0] == Request(c, m)
    {
      AllForThemselves(c, x, m);
      OwnRequestsOnly(c, x, m, c.order[k]);
      assert Request(c, m) in Link(x, m, c.order[k]);
      assert Link(x, m, c.order[k])[0] in Link(x, m, c.order[k]);
    }
  }

  lemma LearntIsSettled(c: Contest, m: Addr, x: Net)
    requires Learning(c, m, |c.order|, x) && ValidContest(c)
    ensures Settled(c, m, m, [], x)
  {
    hide NetInv, Link, NoLoser;
    forall a | a in c.ts ensures Lead(x, a) == m {
      var k :| 0 <= k < |c.order| && c.order[k] == a;
    }
    forall q | q in c.ts && q != m ensures EndsWith(m, Link(x, m, q), []) {
      assert Link(x, m, q)[..|Link(x, m, q)|] == Link(x, m, q);
    }
  }

  lemma NothingOnWire(c: Contest, b: Addr, x: Net)
    requires AtRest(c, x) && OnlyLast(c, b, [], x)
    ensures x.inbox + x.wire == []
  {
    hide RaceInv, On;
    if x.wire != [] {
      var v := x.wire[0];
      assert v in x.inbox + x.wire;
      OnMembers(x.inbox + x.wire, v.from, v.to, v.event);
      assert v == Envelope(v.from, v.to, v.event);
      ToInRace(c, Bag(x), 0);
    }
  }

  lemma {:induction false} RunKeepsVotes(c: Contest, m: Addr, x: Net, ms: seq<Move>)
    requires NetInv(c, x) && IsEarliest(c, m) && m in x.nodes && VotesAddUp(c, m, Bag(x)) && CanRun(c, x, ms)
    ensures NetInv(c, Run(c, x, ms)) && m in Run(c, x, ms).nodes && VotesAddUp(c, m, Bag(Run(c, x, ms)))
    decreases |ms|
  {
    hide Go, CanGo, NetInv, VotesAddUp;
    if ms == [] {
    } else {
      GoKeepsInv(c, x, ms[0]);
      GoKeepsVotes(c, m, x, ms[0]);
      RunKeepsVotes(c, m, Go(c, x, ms[0]), ms[1..]);
    }
  }

  /** Every race, of however many hosts, can go on such that the earliest candidate is elected. */
  lemma ElectionCompletes(c: Contest, m: Addr, x: Net) returns (ms: seq<Move>)
    requires Begins(c, x) && x.inbox == [] && IsEarliest(c, m)
    ensures CanRun(c, x, ms)
    ensures var y := Run(c, x, ms);
            y.inbox + y.wire == [] && y.nodes.Keys == c.ts.Keys && Elected(c, m, Bag(y))
  {
    hide NetInv, AllStand, Learning, Settled, OnlyLast, VotesAddUp, Elected, AllCarried, Go, CanGo, RaceInv;
    BeginsInRace(c, x);
    StartIsCarried(c, m, Bag(x));
    StartsLearning(c, m, x);
    var p, x1 := AllLearn(c, m, 0, x);
    LearntIsSettled(c, m, x1);
    LearntAtRest(c, m, x1);
    var q, y := HearAllElse(c, m, m, [], x1);
    RunOn(c, x, p, q);
    ms := p + q;
    NothingOnWire(c, m, y);
    LeadInRace(c, x, m);
    RunKeepsVotes(c, m, x, ms);
    SettledLeads(c, m, m, [], y);
    AllLedIsElected(c, m, y);
  }

  lemma LearntAtRest(c: Contest, m: Addr, x: Net)
    requires Learning(c, m, |c.order|, x)
    ensures AtRest(c, x)
  { }

  lemma SettledLeads(c: Contest, m: Addr, b: Addr, last: seq<Event>, x: Net)
    requires Settled(c, m, b, last, x)
    ensures forall a :: a in c.ts ==> Lead(x, a) == m
  { }
}
