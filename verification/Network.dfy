/** A whole cluster whose network may lose, duplicate, delay and reorder everything: an envelope once
    sent can be delivered at any later time, any number of times, or never. */
module Network {
  import opened Types
  import opened QuorumStep
  import opened NodeInvariants
  import opened Outputs
  import opened Wire
  import Votes

  /** `sent` holds every envelope ever sent, `minted` every (address, timestamp) pair ever created from
      a clock, `votes` every (voter, candidate, timestamp) such that the voter has registered the candidate
      with this timestamp. */
  datatype Net = Net(
    order: seq<Addr>,
    nodes: map<Addr, Node>,
    sent: set<Envelope>,
    minted: set<(Addr, int)>,
    votes: set<(Addr, Addr, int)>)

  /** One step of one host. For a message, `from` is the host it came from. */
  datatype Act = Act(who: Addr, event: Event, from: Addr)

  function Members(order: seq<Addr>): set<Addr> {
    set a | a in order
  }

  function Start(order: seq<Addr>, caches: seq<string>): Net {
    Net(order, map a | a in order :: Init(Config(a, Members(order) - {a}, caches)), {}, {}, {})
  }

  predicate LocalEvent(e: Event) {
    e.UpdateServer? || e.GetReport? || e.CheckElectionTimeout? || e.HostShutdown? || e.Print?
  }

  ghost predicate Enabled(s: Net, act: Act) {
    && act.who in s.nodes
    && s.nodes[act.who].status == Running
    && ValidEvent(s.nodes[act.who], act.event)
    && (LocalEvent(act.event) || Envelope(act.from, act.who, act.event) in s.sent)
  }

  /** The pairs that a handler creates: its own candidacies and the vote of a leader that shuts down. */
  function Mints(n: Node, e: Event): set<(Addr, int)> {
    match e
    case UpdateServer(server, now) =>
      if server.liveness == Alive then
        if n.leader.None? && n.health != Good && |n.hosts[server.address := server]| >= n.cfg.Quorum()
        then {(n.cfg.whoami, now)} else {}
      else
        if n.leader.Some? && n.leader.value.Remote? && n.leader.value.server.address == server.address
           && n.state != LeaderDead && |n.hosts - {server.address}| >= n.cfg.Quorum()
        then {(n.cfg.whoami, now)} else {}
    case CheckElectionTimeout(now) =>
      if n.leader.Some? && ((n.state == LeaderDead && n.leader.value.Remote? && |n.hosts| >= n.cfg.Quorum())
                            || (n.state == QuorumState.LeaderSwitch && n.health != Bad))
      then {(n.cfg.whoami, now)} else {}
    case HostShutdown(pick, now) =>
      if n.state == QuorumState.Leader && n.hosts != map[] then {(pick, now)} else {}
    case _ => {}
  }

  function VotesOf(m: Node): set<(Addr, Addr, int)> {
    if m.leader.Some? && m.leader.value.Remote?
    then {(m.cfg.whoami, m.leader.value.server.address, m.leader.value.server.electionTs)} else {}
  }

  function Next(s: Net, act: Act): Net
    requires act.who in s.nodes
  {
    var r := Step(s.nodes[act.who], act.event);
    Net(s.order,
        s.nodes[act.who := r.node],
        s.sent + (set v | v in RouteAll(s.order, act.who, act.from, act.event, r.out)),
        s.minted + Mints(s.nodes[act.who], act.event),
        s.votes + VotesOf(r.node))
  }

  // ----- the invariants of the cluster

  ghost predicate Formed(s: Net) {
    && s.nodes.Keys == Members(s.order)
    && forall a :: a in s.nodes ==>
         Inv(s.nodes[a]) && s.nodes[a].cfg.whoami == a && s.nodes[a].cfg.peers == Members(s.order) - {a}
  }

  /** Nobody follows, and no message names, a candidate that never stood. */
  ghost predicate OnlyMinted(s: Net) {
    && (forall a, x, t :: a in s.nodes && LeaderPair(s.nodes[a], x, t) ==> (x, t) in s.minted)
    && (forall v, x, t :: v in s.sent && About(v.event, x, t) ==> (x, t) in s.minted)
  }

  ghost predicate VoteStands(s: Net, v: Envelope) {
    && (v.event.LeaderReq? ==> v.event.addr == v.from)
    && (v.event.LeaderReqAck? ==>
        v.from != v.to && v.from in s.nodes && (v.from, v.event.addr, v.event.ts) in s.votes)
    && (v.event.LeaderSwitchAck? ==>
        v.from != v.to && v.from in s.nodes
        && (v.event.addr == v.from || exists t :: (v.from, v.event.addr, t) in s.votes))
  }

  ghost predicate HasVoter(s: Net, a: Addr) {
    exists b, t :: b in s.nodes && b != a && (b, a, t) in s.votes
  }

  /** Acks come from hosts that registered whom they ack, and whoever has counted one has a voter. */
  ghost predicate VotesStand(s: Net) {
    && (forall v :: v in s.sent ==> VoteStands(s, v))
    && (forall a :: a in s.nodes && s.nodes[a].acks > 0 ==> HasVoter(s, a))
  }

  // ----- where a handler's leader comes from

  lemma AliveOrigin(n: Node, server: RpcServer, now: int, x: Addr, t: int)
    requires Inv(n) && server.liveness == Alive && LeaderPair(OnAlive(n, server, now).node, x, t)
    requires server.tx == Some(Channel(server.address)) && server.address in n.cfg.peers
    ensures LeaderPair(n, x, t) || (x, t) in Mints(n, UpdateServer(server, now))
  {
    TakeAwaitedOk(n, server);
    var n1 := TakeAwaited(n, server).node;
    assert LeaderPair(n1, x, t) ==> LeaderPair(n, x, t);
    TakeRetriedOk(n1, server);
    var n2 := TakeRetried(n1, server).node;
    assert LeaderPair(n2, x, t) ==> LeaderPair(n1, x, t);
  }

  lemma DeadOrigin(n: Node, server: RpcServer, now: int, x: Addr, t: int)
    requires server.liveness == Dead && LeaderPair(OnDead(n, server, now).node, x, t)
    ensures LeaderPair(n, x, t) || (x, t) in Mints(n, UpdateServer(server, now))
  { }

  lemma TimeoutOrigin(n: Node, now: int, x: Addr, t: int)
    requires LeaderPair(OnCheckElectionTimeout(n, now).node, x, t)
    ensures LeaderPair(n, x, t) || (x, t) in Mints(n, CheckElectionTimeout(now))
  { }

  lemma MessageOrigin(n: Node, e: Event, x: Addr, t: int)
    requires !e.UpdateServer? && !e.CheckElectionTimeout? && LeaderPair(Dispatch(n, e).node, x, t)
    ensures LeaderPair(n, x, t) || About(e, x, t)
  {
    hide OnUpdateServer, OnCheckElectionTimeout, ConflictOutput;
  }

  lemma LeaderOrigin(n: Node, e: Event, x: Addr, t: int)
    requires Inv(n) && n.status == Running && ValidEvent(n, e) && LeaderPair(Step(n, e).node, x, t)
    ensures LeaderPair(n, x, t) || About(e, x, t) || (x, t) in Mints(n, e)
  {
    hide OnAlive, OnDead, OnCheckElectionTimeout, Mints, About;
    match e
    case UpdateServer(server, now) =>
      if server.liveness == Alive { AliveOk(n, server, now); AliveOrigin(n, server, now, x, t); }
      else { DeadOrigin(n, server, now, x, t); }
    case CheckElectionTimeout(now) => TimeoutOrigin(n, now, x, t);
    case _ =>
      hide OnLeaderInfo, OnLeaderReq, OnLeaderReqAck, OnLeaderAck, OnLeaderSwitch, OnLeaderSwitchDead,
        OnLeaderSwitchAck, OnLeaderSwitchPriority, OnHostShutdown;
      MessageOrigin(n, e, x, t);
  }

  // ----- one step of the cluster keeps the invariants

  lemma NextFormed(s: Net, act: Act)
    requires Formed(s) && Enabled(s, act)
    ensures Formed(Next(s, act))
  {
    hide Step, Inv, RouteAll, Mints, ValidEvent;
    StepKeepsInv(s.nodes[act.who], act.event);
    StepKeepsName(s.nodes[act.who], act.event);
    assert Next(s, act).nodes.Keys == s.nodes.Keys;
  }

  lemma StepKeepsName(n: Node, e: Event)
    requires Inv(n) && ValidEvent(n, e)
    ensures Step(n, e).node.cfg == n.cfg
  {
    if n.status == Running { StepKeepsInv(n, e); }
  }

  /** A routed message is about a known candidate. */
  lemma RoutedIsMinted(s: Net, act: Act, v: Envelope, x: Addr, t: int)
    requires Formed(s) && OnlyMinted(s) && Enabled(s, act)
    requires v in RouteAll(s.order, act.who, act.from, act.event, Step(s.nodes[act.who], act.event).out)
    requires About(v.event, x, t)
    ensures (x, t) in s.minted + Mints(s.nodes[act.who], act.event)
  {
    hide Step, Mints, Inv, RouteAll, Fan, OnlyMinted, ValidEvent;
    var n, e := s.nodes[act.who], act.event;
    var o := RouteAllOrigin(s.order, act.who, act.from, e, Step(n, e).out, v);
    OutputsAreSound(n, e, o);
    StepKeepsName(n, e);
    if o.Broadcast? {
      FanMembers(s.order, act.who, ToEvent(o.req).value, v);
    }
    if LeaderPair(Step(n, e).node, x, t) {
      LeaderIsMinted(s, act, x, t);
    } else if LeaderPair(n, x, t) || About(e, x, t) {
      KnownIsMinted(s, act, x, t);
    } else {
      ShutdownMints(n, e);
    }
  }

  lemma ShutdownMints(n: Node, e: Event)
    ensures e.HostShutdown? && n.state == QuorumState.Leader && n.hosts != map[] ==> (e.pick, e.now) in Mints(n, e)
  { }

  lemma LeaderIsMinted(s: Net, act: Act, x: Addr, t: int)
    requires Formed(s) && OnlyMinted(s) && Enabled(s, act)
    requires LeaderPair(Step(s.nodes[act.who], act.event).node, x, t)
    ensures (x, t) in s.minted + Mints(s.nodes[act.who], act.event)
  {
    hide Step, Mints, Inv, OnlyMinted, LeaderPair, About, ValidEvent;
    LeaderOrigin(s.nodes[act.who], act.event, x, t);
    if LeaderPair(s.nodes[act.who], x, t) || About(act.event, x, t) {
      KnownIsMinted(s, act, x, t);
    }
  }

  lemma KnownIsMinted(s: Net, act: Act, x: Addr, t: int)
    requires OnlyMinted(s) && Enabled(s, act)
    requires LeaderPair(s.nodes[act.who], x, t) || About(act.event, x, t)
    ensures (x, t) in s.minted
  {
    hide ValidEvent, LeaderPair;
    assert LeaderPair(s.nodes[act.who], x, t) || About(Envelope(act.from, act.who, act.event).event, x, t);
  }

  lemma NextOnlyMinted(s: Net, act: Act)
    requires Formed(s) && OnlyMinted(s) && Enabled(s, act)
    ensures OnlyMinted(Next(s, act))
  {
    hide Step, Mints, LeaderPair, About, RouteAll, Formed, Enabled;
    WhoIsMember(s, act);
    var s' := Next(s, act);
    forall a, x, t | a in s'.nodes && LeaderPair(s'.nodes[a], x, t) ensures (x, t) in s'.minted {
      if a == act.who { LeaderIsMinted(s, act, x, t); }
    }
    forall v, x, t | v in s'.sent && About(v.event, x, t) ensures (x, t) in s'.minted {
      if v !in s.sent { RoutedIsMinted(s, act, v, x, t); }
    }
  }

  lemma BroadcastVoteStands(s: Net, act: Act, v: Envelope, req: RpcRequest, m: Node)
    requires Formed(s) && act.who in s.nodes && m.cfg == s.nodes[act.who].cfg
    requires BroadcastSound(s.nodes[act.who], act.event, m, req)
    requires VotesOf(m) <= Next(s, act).votes
    requires v in Route(s.order, act.who, act.from, act.event, Broadcast(req))
    ensures VoteStands(Next(s, act), v)
  {
    hide Step, Inv, RouteAll, Fan, Mints, Next;
    NextNodes(s, act);
    FanMembers(s.order, act.who, ToEvent(req).value, v);
  }

  lemma OutputVoteStands(s: Net, act: Act, v: Envelope, o: Output, m: Node)
    requires Formed(s) && VotesStand(s) && Enabled(s, act)
    requires Sound(s.nodes[act.who], act.event, m, o) && m.cfg == s.nodes[act.who].cfg
    requires Inv(m) && VotesOf(m) <= Next(s, act).votes
    requires v in Route(s.order, act.who, act.from, act.event, o)
    ensures VoteStands(Next(s, act), v)
  {
    hide Step, Inv, RouteAll, Fan, ValidEvent, Mints, Next, BroadcastSound;
    NextNodes(s, act);
    HostsArePeers(m);
    if o.Broadcast? {
      BroadcastVoteStands(s, act, v, o.req, m);
    } else if o.Answer? && act.event.LeaderReq? {
      assert VoteStands(s, Envelope(act.from, act.who, act.event));
    }
  }

  lemma NextNodes(s: Net, act: Act)
    requires act.who in s.nodes
    ensures Next(s, act).nodes.Keys == s.nodes.Keys + {act.who}
    ensures Next(s, act).votes == s.votes + VotesOf(Step(s.nodes[act.who], act.event).node)
  {
    hide Step, RouteAll, Mints;
  }

  lemma RoutedVoteStands(s: Net, act: Act, v: Envelope)
    requires Formed(s) && VotesStand(s) && Enabled(s, act)
    requires v in RouteAll(s.order, act.who, act.from, act.event, Step(s.nodes[act.who], act.event).out)
    ensures VoteStands(Next(s, act), v)
  {
    hide Step, Inv, RouteAll, Route, Next, VotesStand, VoteStands, Sound, ValidEvent;
    var n, e := s.nodes[act.who], act.event;
    var o := RouteAllOrigin(s.order, act.who, act.from, e, Step(n, e).out, v);
    OutputsAreSound(n, e, o);
    StepKeepsInv(n, e);
    NextNodes(s, act);
    OutputVoteStands(s, act, v, o, Step(n, e).node);
  }

  lemma HostsArePeers(n: Node)
    requires Inv(n)
    ensures n.hosts.Keys <= n.cfg.peers
  { }

  lemma NextVotesStand(s: Net, act: Act)
    requires Formed(s) && VotesStand(s) && Enabled(s, act)
    ensures VotesStand(Next(s, act))
  {
    hide Step, RouteAll, Inv, ValidEvent, Mints;
    var s' := Next(s, act);
    forall v | v in s'.sent ensures VoteStands(s', v) {
      if v !in s.sent { RoutedVoteStands(s, act, v); }
    }
    forall a | a in s'.nodes && s'.nodes[a].acks > 0 ensures HasVoter(s', a) {
      if a == act.who && s.nodes[a].acks == 0 {
        Votes.StepCounts(s.nodes[a], act.event);
        assert Counts(s.nodes[a], act.event);
        var t := CountedIsVote(s, act);
        assert act.from in s'.nodes && (act.from, a, t) in s'.votes;
      } else {
        assert HasVoter(s, a);
        var b, t :| b in s.nodes && b != a && (b, a, t) in s.votes;
        assert b in s'.nodes && (b, a, t) in s'.votes;
      }
    }
  }

  /** Whoever sent an ack that is counted has registered the host that counts it, as that ack names it. */
  lemma CountedIsVote(s: Net, act: Act) returns (t: int)
    requires Formed(s) && VotesStand(s) && Enabled(s, act) && Counts(s.nodes[act.who], act.event)
    ensures act.from in s.nodes && act.from != act.who && (act.from, act.who, t) in s.votes
    ensures act.event.LeaderReqAck? ==> t == act.event.ts
  {
    hide Inv, ValidEvent;
    assert VoteStands(s, Envelope(act.from, act.who, act.event));
    t :| (act.from, act.who, t) in s.votes && (act.event.LeaderReqAck? ==> t == act.event.ts);
  }

  // ----- runs of the cluster

  function NetExec(s: Net, acts: seq<Act>): Net
    decreases |acts|
  {
    if acts == [] then s
    else
      var t := NetExec(s, acts[..|acts| - 1]);
      var act := acts[|acts| - 1];
      if act.who in t.nodes then Next(t, act) else t
  }

  ghost predicate NetRun(s: Net, acts: seq<Act>)
    decreases |acts|
  {
    acts == [] ||
    (NetRun(s, acts[..|acts| - 1]) && Enabled(NetExec(s, acts[..|acts| - 1]), acts[|acts| - 1]))
  }

  lemma PeersValid(order: seq<Addr>, caches: seq<string>, a: Addr)
    requires |Members(order)| >= 2 && a in order
    ensures ValidConfig(Config(a, Members(order) - {a}, caches))
  {
    assert Members(order) == (Members(order) - {a}) + {a};
  }

  lemma StartFormed(order: seq<Addr>, caches: seq<string>)
    requires |Members(order)| >= 2
    ensures Formed(Start(order, caches)) && OnlyMinted(Start(order, caches)) && VotesStand(Start(order, caches))
  {
    hide Inv, Core, HostsOk, ValidConfig;
    var s := Start(order, caches);
    forall a | a in s.nodes
      ensures Inv(s.nodes[a]) && s.nodes[a].cfg.whoami == a && s.nodes[a].cfg.peers == Members(order) - {a}
      ensures s.nodes[a].acks == 0 && s.nodes[a].leader.None?
    {
      PeersValid(order, caches, a);
      InitInv(Config(a, Members(order) - {a}, caches));
    }
  }

  /** In every state of every run: a registered leader, a candidate's own timestamp and every
      candidate that a message names were created by a real candidacy or shutdown vote, and whoever
      has counted an ack was registered by another host. */
  lemma {:induction false} ClusterKeepsInvariants(order: seq<Addr>, caches: seq<string>, acts: seq<Act>)
    requires |Members(order)| >= 2 && NetRun(Start(order, caches), acts)
    ensures var s := NetExec(Start(order, caches), acts);
            Formed(s) && OnlyMinted(s) && VotesStand(s) && s.order == order
    decreases |acts|
  {
    hide Formed, OnlyMinted, VotesStand, Enabled, Step;
    if acts == [] {
      StartFormed(order, caches);
    } else {
      var before := acts[..|acts| - 1];
      ClusterKeepsInvariants(order, caches, before);
      var s := NetExec(Start(order, caches), before);
      var act := acts[|acts| - 1];
      WhoIsMember(s, act);
      NextFormed(s, act);
      NextOnlyMinted(s, act);
      NextVotesStand(s, act);
    }
  }

  lemma WhoIsMember(s: Net, act: Act)
    requires Enabled(s, act)
    ensures act.who in s.nodes
  { }

  lemma MintsOwnTime(n: Node, e: Event, x: Addr, t: int)
    requires (x, t) in Mints(n, e)
    ensures e.UpdateServer? || e.CheckElectionTimeout? || e.HostShutdown?
    ensures t == e.now
    ensures x == n.cfg.whoami || (e.HostShutdown? && n.state == QuorumState.Leader && x == e.pick)
  { }

  /** Every pair that exists was created at one step of the run: from that step's clock reading, by the
      very host it names, or by a leader that shut down and voted for it. */
  lemma {:induction false} MintedAtSomeStep(order: seq<Addr>, caches: seq<string>, acts: seq<Act>, x: Addr, t: int)
      returns (i: nat)
    requires |Members(order)| >= 2 && NetRun(Start(order, caches), acts)
    requires (x, t) in NetExec(Start(order, caches), acts).minted
    ensures i < |acts| && acts[i].who in NetExec(Start(order, caches), acts[..i]).nodes
    ensures var n, e := NetExec(Start(order, caches), acts[..i]).nodes[acts[i].who], acts[i].event;
            && (e.UpdateServer? || e.CheckElectionTimeout? || e.HostShutdown?) && t == e.now
            && (x == acts[i].who || (e.HostShutdown? && n.state == QuorumState.Leader && x == e.pick))
    decreases |acts|
  {
    hide Step, Mints, RouteAll, Inv, OnlyMinted, VotesStand;
    var k := |acts| - 1;
    var s := NetExec(Start(order, caches), acts[..k]);
    if (x, t) in s.minted {
      i := MintedAtSomeStep(order, caches, acts[..k], x, t);
      assert acts[..k][..i] == acts[..i];
    } else {
      i := k;
      ClusterKeepsInvariants(order, caches, acts[..k]);
      MintsOwnTime(s.nodes[acts[k].who], acts[k].event, x, t);
    }
  }

  /** So nobody ever follows a candidate that never stood: whoever is registered anywhere, in any run over
      any network, took its timestamp from the clock itself or got it from a leader that shut down. */
  lemma EveryLeaderStood(order: seq<Addr>, caches: seq<string>, acts: seq<Act>, a: Addr, x: Addr, t: int)
      returns (i: nat)
    requires |Members(order)| >= 2 && NetRun(Start(order, caches), acts)
    requires a in NetExec(Start(order, caches), acts).nodes
    requires LeaderPair(NetExec(Start(order, caches), acts).nodes[a], x, t)
    ensures i < |acts| && acts[i].who in NetExec(Start(order, caches), acts[..i]).nodes
    ensures var n, e := NetExec(Start(order, caches), acts[..i]).nodes[acts[i].who], acts[i].event;
            && (e.UpdateServer? || e.CheckElectionTimeout? || e.HostShutdown?) && t == e.now
            && (x == acts[i].who || (e.HostShutdown? && n.state == QuorumState.Leader && x == e.pick))
  {
    hide Step, Formed, VotesStand, LeaderPair;
    ClusterKeepsInvariants(order, caches, acts);
    i := MintedAtSomeStep(order, caches, acts, x, t);
  }

  /** Whoever announces itself has been registered by another host before, namely by the one whose ack makes
      it announce itself, and with the timestamp of that ack; in clusters of up to three hosts the two are a
      majority. */
  lemma AnnouncementHasMajority(order: seq<Addr>, caches: seq<string>, acts: seq<Act>, act: Act, addr: Addr, ts: int)
      returns (t: int)
    requires |Members(order)| >= 2 && NetRun(Start(order, caches), acts)
    requires Enabled(NetExec(Start(order, caches), acts), act)
    requires Broadcast(RpcRequest.LeaderAck(addr, ts))
          in Step(NetExec(Start(order, caches), acts).nodes[act.who], act.event).out
    ensures addr == act.who && act.from in Members(order) && act.from != addr
    ensures (act.from, addr, t) in NetExec(Start(order, caches), acts).votes
    ensures act.event.LeaderReqAck? ==> t == act.event.ts
    ensures |Members(order)| <= 3 ==> 2 * |{addr, act.from}| > |Members(order)|
  {
    hide Formed, OnlyMinted, VotesStand, Enabled, Step, NetExec, NetRun;
    ClusterKeepsInvariants(order, caches, acts);
    var s := NetExec(Start(order, caches), acts);
    WhoIsMember(s, act);
    AnnouncerCounts(s, act, addr, ts);
    t := CountedIsVote(s, act);
    FromMember(s, act.from);
  }

  lemma FromMember(s: Net, a: Addr)
    requires Formed(s) && a in s.nodes
    ensures a in Members(s.order)
  { }

  lemma AnnouncerCounts(s: Net, act: Act, addr: Addr, ts: int)
    requires Formed(s) && Enabled(s, act)
    requires Broadcast(RpcRequest.LeaderAck(addr, ts)) in Step(s.nodes[act.who], act.event).out
    ensures addr == act.who && Counts(s.nodes[act.who], act.event)
  {
    hide Step;
    OutputsAreSound(s.nodes[act.who], act.event, Broadcast(RpcRequest.LeaderAck(addr, ts)));
    StepKeepsName(s.nodes[act.who], act.event);
  }

  /** If the hosts are split into groups such that everyone is connected only within its own group,
      hosts that still consider the quorum good are all in one group. */
  lemma NoTwoHealthyPartitions(order: seq<Addr>, caches: seq<string>, acts: seq<Act>, group: Addr -> int,
                               a: Addr, b: Addr)
    requires |Members(order)| >= 2 && NetRun(Start(order, caches), acts)
    requires var s := NetExec(Start(order, caches), acts);
             && (forall c, h :: c in s.nodes && h in s.nodes[c].hosts ==> group(h) == group(c))
             && a in s.nodes && b in s.nodes && s.nodes[a].health != Bad && s.nodes[b].health != Bad
    ensures group(a) == group(b)
  {
    hide Inv, OnlyMinted, VotesStand, NetExec, NetRun;
    ClusterKeepsInvariants(order, caches, acts);
    var s := NetExec(Start(order, caches), acts);
    if group(a) != group(b) {
      var ga, gb := s.nodes[a].hosts.Keys + {a}, s.nodes[b].hosts.Keys + {b};
      HealthyGroup(s, a);
      HealthyGroup(s, b);
      forall h | h in ga ensures group(h) == group(a) { }
      forall h | h in gb ensures group(h) == group(b) { }
      assert ga !! gb;
      assert |ga + gb| == |ga| + |gb|;
      SubsetSize(ga + gb, Members(order));
    }
  }

  /** A host that considers the quorum good is connected to more than half of the cluster. */
  lemma HealthyGroup(s: Net, a: Addr)
    requires Formed(s) && a in s.nodes && s.nodes[a].health != Bad
    ensures s.nodes[a].hosts.Keys + {a} <= Members(s.order)
    ensures 2 * |s.nodes[a].hosts.Keys + {a}| > |Members(s.order)|
  {
    hide Inv;
    var n := s.nodes[a];
    HealthyHosts(n);
    assert Members(s.order) == n.cfg.peers + {a};
    assert |n.hosts.Keys + {a}| == |n.hosts.Keys| + 1;
  }
}
