/** How a race comes about: hosts that start up and connect to all others stand as candidates. */
module Joining {
  import opened Types
  import opened QuorumStep
  import opened QuorumHandler
  import opened NodeInvariants
  import opened Wire
  import opened Race
  import opened Queues

  function Join(a: Addr, now: int): Event {
    UpdateServer(RpcServer(a, Alive, Some(Channel(a)), -1), now)
  }

  /** The peers connect in the order of `ps`, the clock reading `nows`. */
  function Joins(ps: seq<Addr>, nows: seq<int>): seq<Event>
    requires |ps| == |nows|
    decreases |ps|
  {
    if ps == [] then []
    else Joins(ps[..|ps| - 1], nows[..|ps| - 1]) + [Join(ps[|ps| - 1], nows[|ps| - 1])]
  }

  /** These and no other hosts are connected, each over its own channel. */
  ghost predicate HostsAre(ps: seq<Addr>, hosts: map<Addr, RpcServer>) {
    && |hosts| == |ps|
    && (forall a :: a in hosts <==> a in ps)
    && forall a :: a in hosts ==> hosts[a].tx == Some(Channel(a))
  }

  /** The state after the peers `ps` have connected. */
  ghost predicate Joined(cfg: Config, ps: seq<Addr>, nows: seq<int>, n: Node)
    requires |ps| == |nows| && cfg.Quorum() >= 1
  {
    && n.status == Running && n.cfg == cfg && n.acks == 0 && HostsAre(ps, n.hosts)
    && if |ps| < cfg.Quorum() then n.leader == None && n.state == Undefined && n.health == Bad
       else n.leader == Some(Local(nows[cfg.Quorum() - 1])) && n.state == LeadershipRequested(nows[cfg.Quorum() - 1])
  }

  lemma MoreHosts(ps: seq<Addr>, a: Addr, hosts: map<Addr, RpcServer>)
    requires HostsAre(ps, hosts) && a !in ps
    ensures HostsAre(ps + [a], hosts[a := Join(a, 0).server])
  {
    assert hosts[a := Join(a, 0).server].Keys == hosts.Keys + {a};
    assert a !in hosts.Keys;
  }

  lemma AliveOnlyCounts(n: Node, server: RpcServer, now: int)
    requires !n.state.LeaderTxAwait? && !n.state.Retry?
    ensures OnAlive(n, server, now) == AddHost(n, server, now)
  {
    hide AddHost;
    assert [] + [] + AddHost(n, server, now).out == AddHost(n, server, now).out;
    AddHostPublishes(n, server, now);
  }

  lemma AddHostPublishes(n: Node, server: RpcServer, now: int)
    ensures AddHost(n, server, now).publish
  { }

  lemma OneJoins(cfg: Config, ps: seq<Addr>, nows: seq<int>, a: Addr, now: int, n: Node)
    requires |ps| == |nows| && cfg.Quorum() >= 1 && a !in ps && Joined(cfg, ps, nows, n)
    ensures Joined(cfg, ps + [a], nows + [now], Step(n, Join(a, now)).node)
    ensures Step(n, Join(a, now)).out
         == if |ps| + 1 == cfg.Quorum() then [Broadcast(RpcRequest.LeaderReq(cfg.whoami, now)), Timer(false)] else []
  {
    hide OnAlive, HostsAre;
    var server := Join(a, now).server;
    AliveOnlyCounts(n, server, now);
    MoreHosts(ps, a, n.hosts);
    assert |n.hosts[a := server]| == |ps| + 1 by { HostCount(ps + [a], n.hosts[a := server]); }
  }

  lemma HostCount(ps: seq<Addr>, hosts: map<Addr, RpcServer>)
    requires HostsAre(ps, hosts)
    ensures |hosts| == |ps|
  { }

  /** What it has sent by then: its request, from the moment it has a quorum. */
  function Requests(cfg: Config, nows: seq<int>): seq<Output>
    requires cfg.Quorum() >= 1
  {
    if |nows| < cfg.Quorum() then []
    else [Broadcast(RpcRequest.LeaderReq(cfg.whoami, nows[cfg.Quorum() - 1])), Timer(false)]
  }

  lemma MoreRequests(cfg: Config, nows: seq<int>, now: int)
    requires cfg.Quorum() >= 1
    ensures Requests(cfg, nows + [now])
         == Requests(cfg, nows)
            + if |nows| + 1 == cfg.Quorum()
              then [Broadcast(RpcRequest.LeaderReq(cfg.whoami, now)), Timer(false)] else []
  { }

  /** The host stands from the moment it has a quorum, with the clock reading of that moment, and sends its
      request exactly once, whatever connects later. */
  lemma {:induction false} JoiningHostStands(cfg: Config, ps: seq<Addr>, nows: seq<int>)
    requires |ps| == |nows| && cfg.Quorum() >= 1 && Distinct(ps) && (forall a :: a in ps ==> a in cfg.peers)
    ensures ValidRun(Init(cfg), Joins(ps, nows))
    ensures Joined(cfg, ps, nows, Exec(Init(cfg), Joins(ps, nows)))
    ensures Trace(Init(cfg), Joins(ps, nows)) == Requests(cfg, nows)
    decreases |ps|
  {
    hide Step, Joined, Exec, ValidRun, ValidEvent, Trace, Init, Requests;
    if ps == [] {
      NobodyJoined(cfg, nows);
    } else {
      var k := |ps| - 1;
      var qs, ns := ps[..k], nows[..k];
      var before, e := Joins(qs, ns), Join(ps[k], nows[k]);
      assert ps == qs + [ps[k]] && nows == ns + [nows[k]] && Joins(ps, nows) == before + [e];
      JoiningHostStands(cfg, qs, ns);
      UnfoldRun(Init(cfg), before, e);
      UnfoldTrace(Init(cfg), before, e);
      JoinIsValid(cfg, qs, ns, ps[k], nows[k], Exec(Init(cfg), before));
      OneJoins(cfg, qs, ns, ps[k], nows[k], Exec(Init(cfg), before));
      MoreRequests(cfg, ns, nows[k]);
    }
  }

  lemma JoinIsValid(cfg: Config, ps: seq<Addr>, nows: seq<int>, a: Addr, now: int, n: Node)
    requires |ps| == |nows| && cfg.Quorum() >= 1 && a in cfg.peers && Joined(cfg, ps, nows, n)
    ensures ValidEvent(n, Join(a, now))
  { }

  lemma UnfoldTrace(n: Node, es: seq<Event>, e: Event)
    ensures Trace(n, es + [e]) == Trace(n, es) + Step(Exec(n, es), e).out
  {
    hide Step;
    assert (es + [e])[..|es|] == es;
  }

  lemma NobodyJoined(cfg: Config, nows: seq<int>)
    requires nows == [] && cfg.Quorum() >= 1
    ensures ValidRun(Init(cfg), []) && Exec(Init(cfg), []) == Init(cfg) && Trace(Init(cfg), []) == Requests(cfg, nows)
    ensures Joined(cfg, [], nows, Init(cfg))
  { }

  lemma {:induction false} SomePeers(peers: set<Addr>, n: nat) returns (ps: seq<Addr>)
    requires n <= |peers|
    ensures |ps| == n && Distinct(ps) && forall a :: a in ps ==> a in peers
  {
    if n == 0 {
      ps := [];
    } else {
      var a :| a in peers;
      var rest := SomePeers(peers - {a}, n - 1);
      ps := [a] + rest;
      assert forall i :: 0 <= i < |rest| ==> rest[i] in rest;
    }
  }

  lemma {:induction false} SetOfDistinct(s: seq<Addr>)
    requires Distinct(s)
    ensures |set a | a in s| == |s|
  {
    if s == [] {
    } else {
      var k := |s| - 1;
      SetOfDistinct(s[..k]);
      assert s == s[..k] + [s[k]];
      assert (set a | a in s) == (set a | a in s[..k]) + {s[k]};
      assert s[k] !in s[..k];
    }
  }

  // ----- one host starts up

  /** A starting host: its handler with the events that wait in its queue, what its client task for each peer has
      still to send, and what its server has told each peer that connected. The rest is history: who has connected
      and asked, whom the handler has counted and when, and who came after it stood. */
  datatype Boot = Boot(
    node: Node,
    inbox: seq<Event>,
    queues: map<Addr, seq<RpcRequest>>,
    greetings: map<Addr, Option<Event>>,
    connected: set<Addr>,
    asked: set<Addr>,
    joined: seq<Addr>,
    times: seq<int>,
    lateConnects: set<Addr>,
    lateReports: set<Addr>)

  /** The client for `peer` gets its connection; a client of `peer` connects to the server; the handler takes
      its next event. */
  datatype BootStep = Connect(peer: Addr, now: int) | Ask(peer: Addr) | Serve

  function PowerOn(cfg: Config): Boot {
    Boot(Init(cfg), [], map p | p in cfg.peers :: [], map[], {}, {}, [], [], {}, {})
  }

  ghost predicate CanBoot(b: Boot, s: BootStep) {
    match s
    case Connect(p, _) => p in b.node.cfg.peers && p !in b.connected
    case Ask(p) => p in b.node.cfg.peers && p !in b.asked
    case Serve => b.inbox != []
  }

  /** What the broadcaster puts into the queue of every client. */
  function ToClients(out: seq<Output>): seq<RpcRequest> {
    if out == [] then [] else (if out[0].Broadcast? then [out[0].req] else []) + ToClients(out[1..])
  }

  function Spread(queues: map<Addr, seq<RpcRequest>>, sent: seq<RpcRequest>): (r: map<Addr, seq<RpcRequest>>)
    ensures r.Keys == queues.Keys && forall p :: p in queues ==> r[p] == queues[p] + sent
  {
    map p | p in queues :: queues[p] + sent
  }

  /** The handler takes its next event. */
  function ServeOn(b: Boot): Boot
    requires b.inbox != []
  {
    var e := b.inbox[0];
    var n := b.node;
    var r := Step(n, e);
    var queues := Spread(b.queues, ToClients(r.out));
    if e.GetReport? then
      var greeting := Greeting(n.cfg.whoami, QuorumReport(n.health, n.state, n.leader, n.hosts));
      Boot(r.node, b.inbox[1..], queues, b.greetings[e.asker := greeting], b.connected, b.asked, b.joined, b.times,
           b.lateConnects, b.lateReports + if n.leader.Some? then {e.asker} else {})
    else if e.UpdateServer? then
      Boot(r.node, b.inbox[1..], queues, b.greetings, b.connected, b.asked, b.joined + [e.server.address],
           b.times + [e.now], b.lateConnects, b.lateReports)
    else Boot(r.node, b.inbox[1..], queues, b.greetings, b.connected, b.asked, b.joined, b.times,
              b.lateConnects, b.lateReports)
  }

  /** A client that gets its connection drains its queue before it reports the connection. */
  function BootOn(b: Boot, s: BootStep): Boot
    requires CanBoot(b, s)
  {
    match s
    case Connect(p, now) =>
      b.(queues := b.queues[p := []], inbox := b.inbox + [Join(p, now)], connected := b.connected + {p},
         lateConnects := b.lateConnects + if b.node.leader.Some? then {p} else {})
    case Ask(p) => b.(inbox := b.inbox + [GetReport(p)], asked := b.asked + {p})
    case Serve => ServeOn(b)
  }

  ghost predicate ValidBoot(b: Boot, ss: seq<BootStep>)
    decreases |ss|
  {
    ss == [] || (CanBoot(b, ss[0]) && ValidBoot(BootOn(b, ss[0]), ss[1..]))
  }

  function BootAll(b: Boot, ss: seq<BootStep>): Boot
    requires ValidBoot(b, ss)
    decreases |ss|
  {
    if ss == [] then b else BootAll(BootOn(b, ss[0]), ss[1..])
  }

  /** In the handler's queue is one connection event for each host in `joins`, and one request for a report for
      each in `reports`. */
  ghost predicate Waiting(inbox: seq<Event>, joins: set<Addr>, reports: set<Addr>) {
    && (forall i :: 0 <= i < |inbox| ==>
          || (inbox[i].UpdateServer? && inbox[i].server.address in joins
              && inbox[i] == Join(inbox[i].server.address, inbox[i].now))
          || (inbox[i].GetReport? && inbox[i].asker in reports))
    && (forall i, j :: 0 <= i < j < |inbox| && inbox[i].UpdateServer? && inbox[j].UpdateServer? ==>
          inbox[i].server.address != inbox[j].server.address)
    && (forall i, j :: 0 <= i < j < |inbox| && inbox[i].GetReport? && inbox[j].GetReport? ==>
          inbox[i].asker != inbox[j].asker)
    && (forall p :: p in joins ==>
          exists i :: 0 <= i < |inbox| && inbox[i].UpdateServer? && inbox[i].server.address == p)
    && (forall p :: p in reports ==>
          exists i :: 0 <= i < |inbox| && inbox[i].GetReport? && inbox[i].asker == p)
  }

  function ToJoin(b: Boot): set<Addr> {
    b.connected - set p | p in b.joined
  }

  function ToReport(b: Boot): set<Addr> {
    b.asked - b.greetings.Keys
  }

  lemma OneMoreWaits(inbox: seq<Event>, joins: set<Addr>, reports: set<Addr>, e: Event, p: Addr)
    requires Waiting(inbox, joins, reports)
    requires (p !in joins && exists now :: e == Join(p, now)) || (p !in reports && e == GetReport(p))
    ensures e.UpdateServer? ==> Waiting(inbox + [e], joins + {p}, reports)
    ensures e.GetReport? ==> Waiting(inbox + [e], joins, reports + {p})
  {
    var more := inbox + [e];
    assert more[|inbox|] == e;
    forall q | q in joins
      ensures exists i :: 0 <= i < |more| && more[i].UpdateServer? && more[i].server.address == q
    {
      var i :| 0 <= i < |inbox| && inbox[i].UpdateServer? && inbox[i].server.address == q;
      assert more[i] == inbox[i];
    }
    forall q | q in reports ensures exists i :: 0 <= i < |more| && more[i].GetReport? && more[i].asker == q {
      var i :| 0 <= i < |inbox| && inbox[i].GetReport? && inbox[i].asker == q;
      assert more[i] == inbox[i];
    }
  }

  lemma OneLessWaits(inbox: seq<Event>, joins: set<Addr>, reports: set<Addr>)
    requires Waiting(inbox, joins, reports) && inbox != []
    ensures var e := inbox[0];
            if e.UpdateServer?
            then e.server.address in joins && e == Join(e.server.address, e.now)
                 && Waiting(inbox[1..], joins - {e.server.address}, reports)
            else e.GetReport? && e.asker in reports && Waiting(inbox[1..], joins, reports - {e.asker})
  {
    var e, less := inbox[0], inbox[1..];
    var joins' := if e.UpdateServer? then joins - {e.server.address} else joins;
    var reports' := if e.GetReport? then reports - {e.asker} else reports;
    forall q | q in joins' ensures exists i :: 0 <= i < |less| && less[i].UpdateServer? && less[i].server.address == q {
      var i :| 0 <= i < |inbox| && inbox[i].UpdateServer? && inbox[i].server.address == q;
      assert less[i - 1] == inbox[i];
    }
    forall q | q in reports' ensures exists i :: 0 <= i < |less| && less[i].GetReport? && less[i].asker == q {
      var i :| 0 <= i < |inbox| && inbox[i].GetReport? && inbox[i].asker == q;
      assert less[i - 1] == inbox[i];
    }
  }

  /** The time at which it stood, once it has. */
  function StoodAt(b: Boot): int {
    var q := b.node.cfg.Quorum();
    if 1 <= q <= |b.times| then b.times[q - 1] else 0
  }

  ghost predicate Counting(cfg: Config, b: Boot) {
    && ValidConfig(cfg) && b.node.cfg == cfg && |b.joined| == |b.times| && Distinct(b.joined)
    && Joined(cfg, b.joined, b.times, b.node)
    && b.connected <= cfg.peers && (forall p :: p in b.joined ==> p in b.connected)
  }

  /** What waits for `p` is the request of the candidate, unless `p` connected too late. */
  ghost predicate QueuesOk(cfg: Config, b: Boot) {
    && b.queues.Keys == cfg.peers
    && (forall p :: p in cfg.peers ==>
          b.queues[p] == if b.node.leader.Some? && p !in b.lateConnects
                         then [RpcRequest.LeaderReq(cfg.whoami, StoodAt(b))] else [])
    && b.lateConnects <= b.connected && (b.node.leader.None? ==> b.lateConnects == {})
  }

  /** `p` has been told of a leader exactly if it was answered too late. */
  ghost predicate GreetingsOk(cfg: Config, b: Boot) {
    && b.asked <= cfg.peers && b.greetings.Keys <= b.asked
    && (forall p :: p in b.greetings ==>
          if p in b.lateReports then b.greetings[p].Some? && b.greetings[p].value.LeaderInfo?
          else b.greetings[p] == None)
    && b.lateReports <= b.greetings.Keys && (b.node.leader.None? ==> b.lateReports == {})
  }

  ghost predicate BootInv(cfg: Config, b: Boot) {
    Counting(cfg, b) && QueuesOk(cfg, b) && GreetingsOk(cfg, b) && Waiting(b.inbox, ToJoin(b), ToReport(b))
  }

  lemma BootStarts(cfg: Config)
    requires ValidConfig(cfg)
    ensures BootInv(cfg, PowerOn(cfg))
  {
    NobodyJoined(cfg, []);
  }

  lemma ConnectKeepsInv(cfg: Config, b: Boot, s: BootStep)
    requires BootInv(cfg, b) && CanBoot(b, s) && s.Connect?
    ensures BootInv(cfg, BootOn(b, s))
  {
    hide Joined, Waiting;
    OneMoreWaits(b.inbox, ToJoin(b), ToReport(b), Join(s.peer, s.now), s.peer);
    assert ToJoin(BootOn(b, s)) == ToJoin(b) + {s.peer};
  }

  lemma AskKeepsInv(cfg: Config, b: Boot, s: BootStep)
    requires BootInv(cfg, b) && CanBoot(b, s) && s.Ask?
    ensures BootInv(cfg, BootOn(b, s))
  {
    hide Joined, Waiting;
    OneMoreWaits(b.inbox, ToJoin(b), ToReport(b), GetReport(s.peer), s.peer);
    assert ToReport(BootOn(b, s)) == ToReport(b) + {s.peer};
  }

  lemma JoinSpreads(cfg: Config, b: Boot, c: Boot, sent: seq<RpcRequest>)
    requires QueuesOk(cfg, b) && c.lateConnects == b.lateConnects && c.connected == b.connected
    requires c.queues == Spread(b.queues, sent) && c.node.cfg == b.node.cfg == cfg
    requires if b.node.leader.None? && c.node.leader.Some? then sent == [RpcRequest.LeaderReq(cfg.whoami, StoodAt(c))]
             else sent == [] && (b.node.leader.Some? <==> c.node.leader.Some?)
                  && (b.node.leader.Some? ==> StoodAt(c) == StoodAt(b))
    ensures QueuesOk(cfg, c)
  {
    hide StoodAt;
    forall q | q in cfg.peers
      ensures c.queues[q] == if c.node.leader.Some? && q !in c.lateConnects
                             then [RpcRequest.LeaderReq(cfg.whoami, StoodAt(c))] else []
    {
      assert b.queues[q] + [] == b.queues[q];
      assert [] + sent == sent;
    }
  }

  lemma JoinCounts(cfg: Config, b: Boot, p: Addr, now: int, m: Node)
    requires Counting(cfg, b) && p in ToJoin(b) && m == Step(b.node, Join(p, now)).node
    ensures Joined(cfg, b.joined + [p], b.times + [now], m) && Distinct(b.joined + [p]) && m.cfg == cfg
    ensures b.node.leader.Some? <==> |b.joined| >= cfg.Quorum()
    ensures m.leader.Some? <==> |b.joined| + 1 >= cfg.Quorum()
    ensures ToClients(Step(b.node, Join(p, now)).out)
         == if |b.joined| + 1 == cfg.Quorum() then [RpcRequest.LeaderReq(cfg.whoami, now)] else []
  {
    hide Step, Joined, ToClients;
    OneJoins(cfg, b.joined, b.times, p, now, b.node);
    JoinedLeader(cfg, b.joined, b.times, b.node);
    JoinedLeader(cfg, b.joined + [p], b.times + [now], m);
    RequestToClients(cfg, now);
  }

  lemma ServeJoin(cfg: Config, b: Boot)
    requires BootInv(cfg, b) && b.inbox != [] && b.inbox[0].UpdateServer?
    ensures BootInv(cfg, BootOn(b, Serve))
  {
    hide Step, Joined, Waiting, ToClients, Spread, QueuesOk, Distinct;
    OneLessWaits(b.inbox, ToJoin(b), ToReport(b));
    var p, now := b.inbox[0].server.address, b.inbox[0].now;
    var c := ServeOn(b);
    assert ToJoin(c) == ToJoin(b) - {p};
    assert ToReport(c) == ToReport(b);
    JoinCounts(cfg, b, p, now, c.node);
    JoinSpreads(cfg, b, c, ToClients(Step(b.node, b.inbox[0]).out));
    JoinedLocal(cfg, b);
  }

  lemma JoinedLocal(cfg: Config, b: Boot)
    requires Counting(cfg, b)
    ensures b.node.leader.Some? ==> b.node.leader.value.Local?
  { }

  lemma JoinedLeader(cfg: Config, ps: seq<Addr>, nows: seq<int>, n: Node)
    requires |ps| == |nows| && cfg.Quorum() >= 1 && Joined(cfg, ps, nows, n)
    ensures n.leader.Some? <==> |ps| >= cfg.Quorum()
    ensures n.leader.Some? ==> n.leader.value.Local?
    ensures n.cfg == cfg
  { }

  lemma RequestToClients(cfg: Config, now: int)
    ensures ToClients([]) == []
    ensures var req := RpcRequest.LeaderReq(cfg.whoami, now); ToClients([Broadcast(req), Timer(false)]) == [req]
  {
    var req := RpcRequest.LeaderReq(cfg.whoami, now);
    assert [Broadcast(req), Timer(false)][1..] == [Timer(false)] && [Timer(false)][1..] == [];
  }

  lemma ReportKeepsJoined(cfg: Config, ps: seq<Addr>, nows: seq<int>, n: Node, asker: Addr)
    requires |ps| == |nows| && cfg.Quorum() >= 1 && Joined(cfg, ps, nows, n)
    ensures var r := Step(n, GetReport(asker));
            Joined(cfg, ps, nows, r.node) && r.node.leader == n.leader && r.node.cfg == n.cfg && ToClients(r.out) == []
  {
    assert Step(n, GetReport(asker)).out[1..] == [];
  }

  lemma GreetingTells(n: Node)
    ensures var g := Greeting(n.cfg.whoami, QuorumReport(n.health, n.state, n.leader, n.hosts));
            if n.leader.Some? then g.Some? && g.value.LeaderInfo? else g == None
  { }

  lemma ServeReport(cfg: Config, b: Boot)
    requires BootInv(cfg, b) && b.inbox != [] && b.inbox[0].GetReport?
    ensures BootInv(cfg, BootOn(b, Serve))
  {
    hide Step, Joined, Waiting, ToClients, Spread, QueuesOk, Distinct, Greeting;
    OneLessWaits(b.inbox, ToJoin(b), ToReport(b));
    var c := ServeOn(b);
    assert ToReport(c) == ToReport(b) - {b.inbox[0].asker};
    assert ToJoin(c) == ToJoin(b);
    ReportKeepsJoined(cfg, b.joined, b.times, b.node, b.inbox[0].asker);
    GreetingTells(b.node);
    JoinSpreads(cfg, b, c, []);
  }

  lemma OneBootStep(cfg: Config, b: Boot, s: BootStep)
    requires BootInv(cfg, b) && CanBoot(b, s)
    ensures BootInv(cfg, BootOn(b, s))
  {
    hide BootOn, Counting, QueuesOk, GreetingsOk, Waiting;
    match s
    case Connect(_, _) => ConnectKeepsInv(cfg, b, s);
    case Ask(_) => AskKeepsInv(cfg, b, s);
    case Serve =>
      OneLessWaits(b.inbox, ToJoin(b), ToReport(b));
      if b.inbox[0].UpdateServer? { ServeJoin(cfg, b); } else { ServeReport(cfg, b); }
  }

  lemma {:induction false} BootKeepsInv(cfg: Config, b: Boot, ss: seq<BootStep>)
    requires BootInv(cfg, b) && ValidBoot(b, ss)
    ensures BootInv(cfg, BootAll(b, ss))
    decreases |ss|
  {
    hide BootInv, BootOn, CanBoot;
    if ss == [] {
    } else {
      OneBootStep(cfg, b, ss[0]);
      BootKeepsInv(cfg, BootOn(b, ss[0]), ss[1..]);
    }
  }

  // ----- a host can start in time

  lemma {:induction false} BootConcat(b: Boot, p: seq<BootStep>, q: seq<BootStep>)
    requires ValidBoot(b, p) && ValidBoot(BootAll(b, p), q)
    ensures ValidBoot(b, p + q) && BootAll(b, p + q) == BootAll(BootAll(b, p), q)
    decreases |p|
  {
    hide BootOn, CanBoot;
    if p == [] {
      assert p + q == q;
    } else {
      assert (p + q)[0] == p[0] && (p + q)[1..] == p[1..] + q;
      BootConcat(BootOn(b, p[0]), p[1..], q);
    }
  }

  lemma BootOne(b: Boot, s: BootStep)
    requires CanBoot(b, s)
    ensures ValidBoot(b, [s]) && BootAll(b, [s]) == BootOn(b, s)
  {
    hide BootOn, CanBoot;
    assert [s][1..] == [];
  }

  /** Nobody has been counted yet, and nobody was late. */
  ghost predicate Early(cfg: Config, b: Boot) {
    b.node.cfg == cfg && b.node.leader.None? && b.lateConnects == {} && b.lateReports == {}
  }

  lemma {:induction false} AllAsk(cfg: Config, b: Boot, ps: seq<Addr>) returns (ss: seq<BootStep>, c: Boot)
    requires BootInv(cfg, b) && Early(cfg, b) && Distinct(ps)
    requires forall p :: p in ps ==> p in cfg.peers && p !in b.asked
    requires forall i :: 0 <= i < |b.inbox| ==> b.inbox[i].GetReport?
    ensures ValidBoot(b, ss) && c == BootAll(b, ss) && BootInv(cfg, c) && Early(cfg, c)
    ensures forall i :: 0 <= i < |c.inbox| ==> c.inbox[i].GetReport?
    ensures c.asked == b.asked + (set p | p in ps) && c.connected == b.connected
    decreases |ps|
  {
    hide BootInv;
    if ps == [] {
      ss, c := [], b;
    } else {
      var s := Ask(ps[0]);
      OneBootStep(cfg, b, s);
      BootOne(b, s);
      assert forall p :: p in ps[1..] ==> p in ps && p != ps[0];
      var rest, d := AllAsk(cfg, BootOn(b, s), ps[1..]);
      BootConcat(b, [s], rest);
      ss, c := [s] + rest, d;
      assert (set p | p in ps) == {ps[0]} + set p | p in ps[1..];
    }
  }

  /** Reports before connections. */
  ghost predicate ReportsFirst(inbox: seq<Event>) {
    forall i, j :: 0 <= i < j < |inbox| && inbox[j].GetReport? ==> inbox[i].GetReport?
  }

  lemma {:induction false} AllConnect(cfg: Config, b: Boot, ps: seq<Addr>) returns (ss: seq<BootStep>, c: Boot)
    requires BootInv(cfg, b) && Early(cfg, b) && Distinct(ps) && ReportsFirst(b.inbox)
    requires forall p :: p in ps ==> p in cfg.peers && p !in b.connected
    ensures ValidBoot(b, ss) && c == BootAll(b, ss) && BootInv(cfg, c) && Early(cfg, c) && ReportsFirst(c.inbox)
    ensures c.connected == b.connected + (set p | p in ps) && c.asked == b.asked
    decreases |ps|
  {
    hide BootInv;
    if ps == [] {
      ss, c := [], b;
    } else {
      var s := Connect(ps[0], 0);
      OneBootStep(cfg, b, s);
      BootOne(b, s);
      assert forall p :: p in ps[1..] ==> p in ps && p != ps[0];
      var rest, d := AllConnect(cfg, BootOn(b, s), ps[1..]);
      BootConcat(b, [s], rest);
      ss, c := [s] + rest, d;
      assert (set p | p in ps) == {ps[0]} + set p | p in ps[1..];
    }
  }

  /** While a report waits, the handler does not stand. */
  ghost predicate Punctual(b: Boot) {
    && ReportsFirst(b.inbox) && b.lateConnects == {} && b.lateReports == {}
    && (b.inbox != [] && b.inbox[0].GetReport? ==> b.node.leader.None?)
  }

  lemma ServePunctually(cfg: Config, b: Boot)
    requires BootInv(cfg, b) && Punctual(b) && b.inbox != []
    ensures Punctual(ServeOn(b)) && ServeOn(b).connected == b.connected && ServeOn(b).asked == b.asked
    ensures ServeOn(b).inbox == b.inbox[1..]
  {
    hide Step, Spread, ToClients, Greeting, Joined, QueuesOk, GreetingsOk;
    if b.inbox[0].GetReport? {
      ReportKeepsJoined(cfg, b.joined, b.times, b.node, b.inbox[0].asker);
    }
  }

  lemma {:induction false} AllServed(cfg: Config, b: Boot) returns (ss: seq<BootStep>, c: Boot)
    requires BootInv(cfg, b) && Punctual(b)
    ensures ValidBoot(b, ss) && c == BootAll(b, ss) && BootInv(cfg, c) && Punctual(c)
    ensures c.inbox == [] && c.connected == b.connected && c.asked == b.asked
    decreases |b.inbox|
  {
    hide BootInv, ServeOn, Punctual;
    if b.inbox == [] {
      ss, c := [], b;
    } else {
      ServePunctually(cfg, b);
      OneBootStep(cfg, b, Serve);
      BootOne(b, Serve);
      var rest, d := AllServed(cfg, BootOn(b, Serve));
      BootConcat(b, [Serve], rest);
      ss, c := [Serve] + rest, d;
    }
  }

  /** No connection of the host came up, and no other host got its answer, after it had begun to stand. */
  predicate InTime(b: Boot) {
    b.lateConnects == {} && b.lateReports == {}
  }

  /** Every host can start in time: for instance if all others are answered before its own connections come up. */
  lemma StartsInTime(cfg: Config, ps: seq<Addr>) returns (ss: seq<BootStep>)
    requires ValidConfig(cfg) && Distinct(ps) && cfg.peers == set p | p in ps
    ensures ValidBoot(PowerOn(cfg), ss)
    ensures var b := BootAll(PowerOn(cfg), ss);
            b.connected == b.asked == cfg.peers && b.inbox == [] && InTime(b)
  {
    hide BootInv;
    BootStarts(cfg);
    var p, b1 := AllAsk(cfg, PowerOn(cfg), ps);
    var q, b2 := AllConnect(cfg, b1, ps);
    BootConcat(PowerOn(cfg), p, q);
    var r, b3 := AllServed(cfg, b2);
    BootConcat(PowerOn(cfg), p + q, r);
    ss := p + q + r;
  }

  // ----- a whole cluster starts up

  /** Everybody has connected to the host and it to everybody, and its handler has seen to that. */
  ghost predicate Started(c: Contest, caches: seq<string>, a: Addr, b: Boot)
    requires a in c.ts
  {
    var cfg := Config(a, c.ts.Keys - {a}, caches);
    && (exists ss :: ValidBoot(PowerOn(cfg), ss) && b == BootAll(PowerOn(cfg), ss))
    && b.connected == b.asked == cfg.peers && b.inbox == []
    && c.ts[a] == StoodAt(b)
  }

  ghost predicate OnItsWay(b: Boot, v: Envelope) {
    || (v.to in b.queues && exists req :: req in b.queues[v.to] && ToEvent(req) == Some(v.event))
    || (v.to in b.greetings && b.greetings[v.to] == Some(v.event))
  }

  lemma StartedIs(c: Contest, caches: seq<string>, a: Addr, b: Boot)
    requires ValidContest(c) && a in c.ts && Started(c, caches, a, b)
    ensures BootInv(Config(a, c.ts.Keys - {a}, caches), b)
    ensures Connected(c, a, b.node) && b.node.acks == 0
    ensures b.node.leader == Some(Local(c.ts[a])) && b.node.state == LeadershipRequested(c.ts[a])
    ensures b.greetings.Keys == b.queues.Keys == c.ts.Keys - {a}
  {
    hide BootAll, ValidBoot, PowerOn, BootInv, Connected, StoodAt;
    var cfg := Config(a, c.ts.Keys - {a}, caches);
    PeersOf(c, cfg);
    var ss :| ValidBoot(PowerOn(cfg), ss) && b == BootAll(PowerOn(cfg), ss);
    BootStarts(cfg);
    BootKeepsInv(cfg, PowerOn(cfg), ss);
    NobodyWaits(cfg, b);
    AllJoined(cfg, b);
    StoodJoined(c, cfg, b);
  }

  lemma PeersOf(c: Contest, cfg: Config)
    requires ValidContest(c) && cfg.whoami in c.ts && cfg.peers == c.ts.Keys - {cfg.whoami}
    ensures |cfg.peers| == |c.order| - 1 && ValidConfig(cfg)
    ensures forall d :: d in c.order && d != cfg.whoami ==> d in cfg.peers
  {
    SetOfDistinct(c.order);
    assert c.ts.Keys == set d | d in c.order;
    assert c.ts.Keys == cfg.peers + {cfg.whoami};
  }

  lemma AllJoined(cfg: Config, b: Boot)
    requires BootInv(cfg, b) && b.connected == cfg.peers == set p | p in b.joined
    ensures |b.joined| == |b.times| == |cfg.peers| && cfg.whoami !in b.joined
    ensures b.node.cfg == cfg && ValidConfig(cfg) && Joined(cfg, b.joined, b.times, b.node)
    ensures forall p :: p in cfg.peers ==> p in b.joined
  {
    hide Joined, Waiting, QueuesOk, GreetingsOk;
    SetOfDistinct(b.joined);
  }

  lemma NobodyWaits(cfg: Config, b: Boot)
    requires BootInv(cfg, b) && b.inbox == []
    ensures b.connected == set p | p in b.joined
    ensures b.greetings.Keys == b.asked && b.queues.Keys == cfg.peers
  {
    hide Joined;
    assert ToJoin(b) == {} && ToReport(b) == {};
    forall p | p in b.connected ensures p in b.joined { assert p !in ToJoin(b); }
    forall p | p in b.asked ensures p in b.greetings { assert p !in ToReport(b); }
  }

  lemma StoodJoined(c: Contest, cfg: Config, b: Boot)
    requires ValidConfig(cfg) && |b.joined| == |b.times| == |cfg.peers| == |c.order| - 1
    requires b.node.cfg == cfg && Joined(cfg, b.joined, b.times, b.node)
    requires cfg.whoami !in b.joined && forall d :: d in c.order && d != cfg.whoami ==> d in b.joined
    ensures Connected(c, cfg.whoami, b.node) && b.node.acks == 0
    ensures b.node.leader == Some(Local(StoodAt(b))) && b.node.state == LeadershipRequested(StoodAt(b))
  { }

  lemma WhatIsOnItsWay(c: Contest, caches: seq<string>, a: Addr, b: Boot, v: Envelope)
    requires ValidContest(c) && a in c.ts && Started(c, caches, a, b) && v.from == a
    ensures OnItsWay(b, v) ==> v.to in c.ts && v.to != a && (v.event.LeaderReq? || v.event.LeaderInfo?)
    ensures OnItsWay(b, v) && v.event.LeaderReq? <==>
              v.to in c.ts && v.to != a && v.to !in b.lateConnects && v.event == Event.LeaderReq(a, c.ts[a])
    ensures OnItsWay(b, v) && v.event.LeaderInfo? ==> v.to in b.lateReports
  {
    hide BootAll, ValidBoot, BootInv, Connected, StoodAt, PowerOn;
    StartedIs(c, caches, a, b);
    var cfg := Config(a, c.ts.Keys - {a}, caches);
    QueueOf(c, cfg, b, v);
    if v.to in b.queues && v.to !in b.lateConnects {
      assert RpcRequest.LeaderReq(a, c.ts[a]) in b.queues[v.to];
    }
  }

  lemma LateReportIsOnItsWay(c: Contest, caches: seq<string>, a: Addr, b: Boot, p: Addr) returns (v: Envelope)
    requires ValidContest(c) && a in c.ts && Started(c, caches, a, b) && p in b.lateReports
    ensures v.from == a && v.to == p && OnItsWay(b, v) && v.event.LeaderInfo?
  {
    hide BootAll, ValidBoot, Connected, StoodAt, PowerOn, Joined, Waiting;
    StartedIs(c, caches, a, b);
    v := Envelope(a, p, b.greetings[p].value);
  }

  lemma QueueOf(c: Contest, cfg: Config, b: Boot, v: Envelope)
    requires BootInv(cfg, b) && b.node.leader == Some(Local(StoodAt(b))) && b.greetings.Keys == cfg.peers
    ensures v.to in b.queues && v.to !in b.lateConnects ==>
              b.queues[v.to] == [RpcRequest.LeaderReq(cfg.whoami, StoodAt(b))]
    ensures v.to in b.queues && v.to in b.lateConnects ==> b.queues[v.to] == []
    ensures v.to in b.greetings ==>
              if v.to in b.lateReports then b.greetings[v.to].Some? && b.greetings[v.to].value.LeaderInfo?
              else b.greetings[v.to] == None
  {
    hide Joined, Waiting, StoodAt;
  }

  /** A cluster whose hosts have all started up and connected to each other, and in which nothing else has been
      handled yet, is in the initial situation of a race, if and only if at every host all connections came up
      and all others got their answer before it began to stand. */
  lemma StartupIsRaceIff(c: Contest, caches: seq<string>, boots: map<Addr, Boot>, x: Net)
    requires ValidContest(c) && x.nodes.Keys == boots.Keys == c.ts.Keys && x.inbox == []
    requires forall a :: a in c.ts ==> Started(c, caches, a, boots[a]) && x.nodes[a] == boots[a].node
    requires forall v :: v in x.wire <==> v.from in c.ts && OnItsWay(boots[v.from], v)
    ensures Begins(c, x) <==> forall a :: a in c.ts ==> InTime(boots[a])
  {
    hide Started, OnItsWay, Connected, Proper;
    assert x.inbox + x.wire == x.wire;
    forall v | v in x.wire ensures v.event.LeaderReq? || v.event.LeaderInfo? {
      WhatIsOnItsWay(c, caches, v.from, boots[v.from], v);
    }
    if forall a :: a in c.ts ==> InTime(boots[a]) {
      InTimeBegins(c, caches, boots, x);
    } else {
      var a :| a in c.ts && !InTime(boots[a]);
      LateDoesNotBegin(c, caches, boots, x, a);
    }
  }

  lemma InTimeBegins(c: Contest, caches: seq<string>, boots: map<Addr, Boot>, x: Net)
    requires ValidContest(c) && x.nodes.Keys == boots.Keys == c.ts.Keys && x.inbox == []
    requires forall a :: a in c.ts ==> Started(c, caches, a, boots[a]) && x.nodes[a] == boots[a].node
    requires forall v :: v in x.wire <==> v.from in c.ts && OnItsWay(boots[v.from], v)
    requires forall a :: a in c.ts ==> InTime(boots[a])
    ensures Begins(c, x)
  {
    hide Started, OnItsWay, Connected, Proper, InTime, BootInv, ValidContest;
    assert x.inbox + x.wire == x.wire;
    AllStandInTime(c, caches, boots, x);
    OnlyRequestsInTime(c, caches, boots, x);
  }

  lemma OnlyRequestsInTime(c: Contest, caches: seq<string>, boots: map<Addr, Boot>, x: Net)
    requires ValidContest(c) && boots.Keys == c.ts.Keys
    requires forall a :: a in c.ts ==> Started(c, caches, a, boots[a])
    requires forall v :: v in x.wire <==> v.from in c.ts && OnItsWay(boots[v.from], v)
    requires forall a :: a in c.ts ==> InTime(boots[a])
    ensures forall v :: v in x.wire ==> v.event.LeaderReq? && v.from == v.event.addr && Proper(c, v)
    ensures forall a, p :: a in c.ts && p in c.ts && a != p ==> Envelope(a, p, Event.LeaderReq(a, c.ts[a])) in x.wire
  {
    hide Started, OnItsWay, InTime, BootInv, ValidContest;
    forall v | v in x.wire ensures v.event.LeaderReq? && v.from == v.event.addr && Proper(c, v) {
      OnlyOwnRequest(c, caches, v.from, boots[v.from], v);
    }
    forall a, p | a in c.ts && p in c.ts && a != p ensures Envelope(a, p, Event.LeaderReq(a, c.ts[a])) in x.wire {
      OnlyOwnRequest(c, caches, a, boots[a], Envelope(a, p, Event.LeaderReq(a, c.ts[a])));
    }
  }

  lemma AllStandInTime(c: Contest, caches: seq<string>, boots: map<Addr, Boot>, x: Net)
    requires ValidContest(c) && x.nodes.Keys == boots.Keys == c.ts.Keys
    requires forall a :: a in c.ts ==> Started(c, caches, a, boots[a]) && x.nodes[a] == boots[a].node
    ensures forall a :: a in c.ts ==>
              && Connected(c, a, x.nodes[a]) && x.nodes[a].acks == 0
              && x.nodes[a].leader == Some(Local(c.ts[a])) && x.nodes[a].state == LeadershipRequested(c.ts[a])
  {
    hide Started, Connected, BootInv, ValidContest;
    forall a | a in c.ts
      ensures Connected(c, a, x.nodes[a]) && x.nodes[a].acks == 0
      ensures x.nodes[a].leader == Some(Local(c.ts[a])) && x.nodes[a].state == LeadershipRequested(c.ts[a])
    {
      StartedIs(c, caches, a, boots[a]);
    }
  }

  lemma OnlyOwnRequest(c: Contest, caches: seq<string>, a: Addr, b: Boot, v: Envelope)
    requires ValidContest(c) && a in c.ts && Started(c, caches, a, b) && v.from == a && InTime(b)
    ensures OnItsWay(b, v) <==> v.to in c.ts && v.to != a && v.event == Event.LeaderReq(a, c.ts[a])
    ensures OnItsWay(b, v) ==> v.event.LeaderReq? && v.from == v.event.addr && Proper(c, v)
  {
    hide Started, OnItsWay;
    WhatIsOnItsWay(c, caches, a, b, v);
  }

  lemma LateDoesNotBegin(c: Contest, caches: seq<string>, boots: map<Addr, Boot>, x: Net, a: Addr)
    requires ValidContest(c) && x.nodes.Keys == boots.Keys == c.ts.Keys && x.inbox == []
    requires forall d :: d in c.ts ==> Started(c, caches, d, boots[d]) && x.nodes[d] == boots[d].node
    requires forall v :: v in x.wire <==> v.from in c.ts && OnItsWay(boots[v.from], v)
    requires a in c.ts && !InTime(boots[a])
    ensures !Begins(c, x)
  {
    hide Started, OnItsWay, Connected, Proper, BootInv;
    assert x.inbox + x.wire == x.wire;
    var b := boots[a];
    if b.lateReports != {} {
      var p :| p in b.lateReports;
      var v := LateReportIsOnItsWay(c, caches, a, b, p);
      assert v in x.wire;
    } else {
      var p :| p in b.lateConnects;
      LateIsPeer(c, caches, a, b, p);
      WhatIsOnItsWay(c, caches, a, b, Envelope(a, p, Event.LeaderReq(a, c.ts[a])));
      assert Envelope(a, p, Event.LeaderReq(a, c.ts[a])) !in x.wire;
    }
  }

  lemma LateIsPeer(c: Contest, caches: seq<string>, a: Addr, b: Boot, p: Addr)
    requires ValidContest(c) && a in c.ts && Started(c, caches, a, b) && p in b.lateConnects
    ensures p in c.ts && p != a
  {
    hide BootAll, ValidBoot, Connected, StoodAt, PowerOn, Joined, Waiting;
    StartedIs(c, caches, a, b);
  }
}
