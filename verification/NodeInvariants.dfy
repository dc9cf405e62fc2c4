/** What one handler keeps over every run, whatever its queue delivers and in whatever order. */
module NodeInvariants {
  import opened Types
  import opened QuorumStep

  // ----- the invariant

  /** Which kinds of registered leader go with which state. */
  ghost predicate Coupled(state: QuorumState, leader: Option<RegisteredLeader>) {
    match state
    case Leader => leader.Some? && leader.value.Local?
    case LeadershipRequested(ts) => leader == Some(Local(ts))
    case Follower => leader.Some? && leader.value.Remote?
    case Retry => leader.Some? && leader.value.Remote?
    case LeaderDead => leader.Some? && leader.value.Remote?
    case LeaderTxAwait(a) => leader.Some? && leader.value.Remote? && leader.value.server.address == a
    case Undefined => leader.Some? ==> leader.value.Remote?
    case LeaderSwitch => true
  }

  /** The health that a number of connected hosts ought to give. */
  function HealthOf(count: nat, cfg: Config): Health {
    if count < cfg.Quorum() then Bad else if count == cfg.Clients() then Good else Degraded
  }

  ghost predicate HostsOk(cfg: Config, hosts: map<Addr, RpcServer>) {
    && hosts.Keys <= cfg.peers
    && forall a :: a in hosts ==> hosts[a].address == a && hosts[a].tx == Some(Channel(a))
  }

  /** A follower's channel leads to the leader it has registered. */
  ghost predicate FollowsThrough(leader: Option<RegisteredLeader>, tx: Option<Channel>) {
    leader.Some? && leader.value.Remote? && tx == Some(Channel(leader.value.server.address))
  }

  /** The published snapshot says what the cache functions rely on. */
  ghost predicate SnapshotFaithful(n: Node) {
    && n.watch.state == n.state
    && (n.watch.health == Bad <==> n.health == Bad)
    && (n.watch.health != Bad ==> n.watch.connectedHosts >= n.cfg.Quorum() >= 1)
    && (n.watch.state == Follower ==> FollowsThrough(n.leader, n.watch.txLeader))
  }

  /** The handler's own fields fit together. */
  ghost predicate Core(n: Node) {
    && ValidConfig(n.cfg)
    && HostsOk(n.cfg, n.hosts)
    && n.health == HealthOf(|n.hosts|, n.cfg)
    && Coupled(n.state, n.leader)
    && (n.state.LeadershipRequested? ==> n.health != Bad)
    && (n.state == Follower ==> FollowsThrough(n.leader, n.hs.txLeader))
  }

  ghost predicate Inv(n: Node) {
    Core(n) && SnapshotFaithful(n)
  }

  // ----- cardinalities of the hosts map

  lemma SubsetSize<T>(a: set<T>, b: set<T>)
    requires a <= b
    ensures |a| <= |b|
    ensures |a| == |b| ==> a == b
  {
    assert b == a + (b - a);
    assert |b| == |a| + |b - a|;
  }

  lemma AddHostSize(hosts: map<Addr, RpcServer>, server: RpcServer, peers: set<Addr>)
    requires hosts.Keys <= peers && server.address in peers
    ensures |hosts| <= |hosts[server.address := server]| <= |peers|
  {
    var more := hosts[server.address := server];
    assert more.Keys == hosts.Keys + {server.address};
    SubsetSize(hosts.Keys, more.Keys);
    SubsetSize(more.Keys, peers);
  }

  lemma RemoveHostSize(hosts: map<Addr, RpcServer>, addr: Addr, peers: set<Addr>)
    requires hosts.Keys <= peers && addr in peers
    ensures |hosts - {addr}| <= |hosts| && |hosts - {addr}| < |peers|
    ensures addr in hosts ==> |hosts - {addr}| == |hosts| - 1
    ensures addr !in hosts ==> hosts - {addr} == hosts
  {
    var less := hosts - {addr};
    assert less.Keys == hosts.Keys - {addr};
    SubsetSize(less.Keys, hosts.Keys);
    SubsetSize(less.Keys, peers - {addr});
    if addr !in hosts {
      assert less == hosts;
    }
  }

  /** A handler that considers the quorum good is connected to at least half of its peers. */
  lemma HealthyHosts(n: Node)
    requires Inv(n)
    ensures n.cfg.whoami !in n.cfg.peers && n.hosts.Keys <= n.cfg.peers
    ensures n.health != Bad ==> 2 * |n.hosts.Keys| >= |n.cfg.peers|
  { }

  // ----- one step keeps it

  /** An arm hands back consistent fields and, where it publishes nothing, a snapshot still true. */
  ghost predicate ArmOk(n: Node, a: Arm) {
    && Core(a.node) && a.node.cfg == n.cfg
    && (!a.publish ==> SnapshotFaithful(a.node))
  }

  lemma TakeAwaitedOk(n: Node, server: RpcServer)
    requires Core(n) && server.address in n.cfg.peers && server.tx == Some(Channel(server.address))
    ensures var a := TakeAwaited(n, server); a.publish && ArmOk(n, a) && a.node.status == n.status
  { }

  lemma TakeRetriedOk(n: Node, server: RpcServer)
    requires Core(n) && server.address in n.cfg.peers && server.tx == Some(Channel(server.address))
    ensures var a := TakeRetried(n, server); a.publish && ArmOk(n, a) && a.node.status == n.status
  { }

  lemma AddHostOk(n: Node, server: RpcServer, now: int)
    requires Core(n) && server.address in n.cfg.peers && server.tx == Some(Channel(server.address))
    ensures var a := AddHost(n, server, now); a.publish && ArmOk(n, a) && a.node.status == n.status
  {
    AddHostSize(n.hosts, server, n.cfg.peers);
  }

  lemma AliveOk(n: Node, server: RpcServer, now: int)
    requires Inv(n) && server.address in n.cfg.peers && server.tx == Some(Channel(server.address))
    ensures var a := OnAlive(n, server, now); a.publish && ArmOk(n, a) && a.node.status == n.status
  {
    TakeAwaitedOk(n, server);
    var n1 := TakeAwaited(n, server).node;
    TakeRetriedOk(n1, server);
    AddHostOk(TakeRetried(n1, server).node, server, now);
  }

  lemma LossWithQuorumOk(n: Node, server: RpcServer, now: int)
    requires Inv(n) && server.address in n.cfg.peers
    requires |n.hosts - {server.address}| >= n.cfg.Quorum()
    ensures var a := OnDead(n, server, now); ArmOk(n, a) && a.node.status == n.status
  {
    RemoveHostSize(n.hosts, server.address, n.cfg.peers);
  }

  lemma LossOfQuorumOk(n: Node, server: RpcServer, now: int)
    requires Inv(n) && server.address in n.cfg.peers
    requires |n.hosts - {server.address}| < n.cfg.Quorum()
    ensures var a := OnDead(n, server, now); ArmOk(n, a) && a.node.status == n.status
  {
    RemoveHostSize(n.hosts, server.address, n.cfg.peers);
  }

  lemma UpdateServerOk(n: Node, server: RpcServer, now: int)
    requires Inv(n) && ValidEvent(n, UpdateServer(server, now))
    ensures var a := OnUpdateServer(n, server, now); ArmOk(n, a) && a.node.status == n.status
  {
    if server.liveness == Alive { AliveOk(n, server, now); }
    else if |n.hosts - {server.address}| >= n.cfg.Quorum() { LossWithQuorumOk(n, server, now); }
    else { LossOfQuorumOk(n, server, now); }
  }

  lemma InfoOk(n: Node, addr: Addr, ts: int, hasQuorum: bool)
    requires Inv(n)
    ensures var a := OnLeaderInfo(n, addr, ts, hasQuorum); ArmOk(n, a) && a.node.status == n.status
  { }

  lemma ReqOk(n: Node, addr: Addr, ts: int)
    requires Inv(n)
    ensures var a := OnLeaderReq(n, addr, ts); ArmOk(n, a) && a.node.status == n.status
  { }

  lemma SwitchOk(n: Node, voteHost: Addr, ts: int)
    requires Inv(n)
    ensures var a := OnLeaderSwitch(n, voteHost, ts); ArmOk(n, a) && a.node.status == n.status
  { }

  lemma ReqAckOk(n: Node, addr: Addr, ts: int)
    requires Inv(n)
    ensures var a := OnLeaderReqAck(n, addr, ts); ArmOk(n, a) && a.node.status == n.status
  { }

  lemma PriorityOk(n: Node, voteHost: Addr, ts: int)
    requires Inv(n)
    ensures var a := OnLeaderSwitchPriority(n, voteHost, ts); ArmOk(n, a) && a.node.status == n.status
  { }

  lemma TimeoutOk(n: Node, now: int)
    requires Inv(n)
    ensures var a := OnCheckElectionTimeout(n, now); ArmOk(n, a) && a.node.status == n.status
  { }

  /** The only message that can make a handler panic is a switch ack that finds no leader. */
  ghost predicate Crashes(n: Node, e: Event) {
    e.LeaderSwitchAck? && n.leader.None?
  }

  lemma DispatchOk(n: Node, e: Event)
    requires Inv(n) && ValidEvent(n, e)
    ensures ArmOk(n, Dispatch(n, e))
    ensures Dispatch(n, e).node.status
         == if Crashes(n, e) then Panicked else if e.HostShutdown? then Exited else n.status
  {
    hide OnUpdateServer, OnLeaderInfo, OnLeaderReq, OnLeaderReqAck, OnLeaderSwitch, OnLeaderSwitchPriority,
      OnCheckElectionTimeout;
    match e
    case UpdateServer(server, now) => UpdateServerOk(n, server, now);
    case LeaderInfo(addr, ts, hasQuorum) => InfoOk(n, addr, ts, hasQuorum);
    case LeaderReq(addr, ts) => ReqOk(n, addr, ts);
    case LeaderReqAck(addr, ts) => ReqAckOk(n, addr, ts);
    case LeaderSwitch(voteHost, ts) => SwitchOk(n, voteHost, ts);
    case LeaderSwitchPriority(voteHost, ts) => PriorityOk(n, voteHost, ts);
    case CheckElectionTimeout(now) => TimeoutOk(n, now);
    case _ =>
  }

  /** Every `unwrap` and every other `unreachable!` of the handler is safe, and everything the
      invariant says survives the step. */
  lemma StepKeepsInv(n: Node, e: Event)
    requires Inv(n) && n.status == Running && ValidEvent(n, e)
    ensures Inv(Step(n, e).node)
    ensures Step(n, e).node.status == Panicked <==> Crashes(n, e)
    ensures Step(n, e).node.status == Exited <==> e.HostShutdown?
    ensures Step(n, e).node.cfg == n.cfg
  {
    DispatchOk(n, e);
  }

  // ----- every run keeps it

  lemma InitInv(cfg: Config)
    requires ValidConfig(cfg)
    ensures Inv(Init(cfg))
  { }

  lemma {:induction false} RunKeepsInv(cfg: Config, es: seq<Event>)
    requires ValidConfig(cfg) && ValidRun(Init(cfg), es)
    ensures Inv(Exec(Init(cfg), es))
    ensures Exec(Init(cfg), es).cfg == cfg
    decreases |es|
  {
    if es == [] {
    } else {
      var before := es[..|es| - 1];
      RunKeepsInv(cfg, before);
      var n := Exec(Init(cfg), before);
      if n.status == Running {
        StepKeepsInv(n, es[|es| - 1]);
      }
    }
  }

  /** While the handler still ran, a switch ack came at a moment without a registered leader. */
  ghost predicate SawOrphanAck(n: Node, es: seq<Event>)
    decreases |es|
  {
    es != [] &&
    var before := es[..|es| - 1];
    SawOrphanAck(n, before) || (Exec(n, before).status == Running && Crashes(Exec(n, before), es[|es| - 1]))
  }

  /** A handler has died of a panic exactly if its run contains such an ack. */
  lemma {:induction false} PanicsExactlyOnOrphanAck(cfg: Config, es: seq<Event>)
    requires ValidConfig(cfg) && ValidRun(Init(cfg), es)
    ensures Exec(Init(cfg), es).status == Panicked <==> SawOrphanAck(Init(cfg), es)
    decreases |es|
  {
    if es == [] {
    } else {
      var before := es[..|es| - 1];
      PanicsExactlyOnOrphanAck(cfg, before);
      RunKeepsInv(cfg, before);
      var n := Exec(Init(cfg), before);
      if n.status == Running {
        StepKeepsInv(n, es[|es| - 1]);
      }
    }
  }

  /** Such a run exists for every configuration: the very first message may be a switch ack. */
  lemma OrphanAckPanics(cfg: Config, addr: Addr)
    requires ValidConfig(cfg)
    ensures ValidRun(Init(cfg), [Event.LeaderSwitchAck(addr)])
    ensures Exec(Init(cfg), [Event.LeaderSwitchAck(addr)]).status == Panicked
  {
    UnfoldRun(Init(cfg), [], Event.LeaderSwitchAck(addr));
    assert [] + [Event.LeaderSwitchAck(addr)] == [Event.LeaderSwitchAck(addr)];
  }

  // ----- what the invariant means for the rest of the program

  /** Health tells exactly how many of the configured hosts are connected. */
  lemma HealthIsExact(cfg: Config, es: seq<Event>)
    requires ValidConfig(cfg) && ValidRun(Init(cfg), es)
    ensures var n := Exec(Init(cfg), es);
            && (n.health == Bad <==> |n.hosts| < cfg.Quorum())
            && (n.health == Good <==> n.hosts.Keys == cfg.peers)
  {
    RunKeepsInv(cfg, es);
    var n := Exec(Init(cfg), es);
    SubsetSize(n.hosts.Keys, cfg.peers);
    assert |cfg.peers| >= (|cfg.peers| + 1) / 2;
  }

  /** A candidate always has a healthy quorum, so the election timeout never withdraws it. */
  lemma CandidateIsHealthy(cfg: Config, es: seq<Event>, now: int)
    requires ValidConfig(cfg) && ValidRun(Init(cfg), es)
    requires Exec(Init(cfg), es).state.LeadershipRequested? && Exec(Init(cfg), es).status == Running
    ensures var n := Exec(Init(cfg), es);
            var r := Step(n, CheckElectionTimeout(now));
            && n.leader == Some(Local(n.state.since))
            && r.node.leader == n.leader && r.node.state == n.state
            && r.out == [Broadcast(RpcRequest.LeaderReq(cfg.whoami, n.state.since)), Timer(false)]
  {
    RunKeepsInv(cfg, es);
  }

  /** Whoever reads the snapshot after any run finds the state of the handler, the right verdict on
      the quorum, enough hosts behind a good verdict, and as a follower the leader's own channel. */
  lemma SnapshotCanBeTrusted(cfg: Config, es: seq<Event>)
    requires ValidConfig(cfg) && ValidRun(Init(cfg), es)
    ensures var n := Exec(Init(cfg), es);
            && n.watch.state == n.state
            && (n.watch.IsQuorumGood() <==> |n.hosts| >= cfg.Quorum())
            && (n.watch.IsQuorumGood() ==> n.watch.connectedHosts >= cfg.Quorum() >= 1)
            && (n.watch.state == Follower ==>
                n.leader.Some? && n.leader.value.Remote?
                && n.watch.txLeader == Some(Channel(n.leader.value.server.address)))
  {
    RunKeepsInv(cfg, es);
  }
}
