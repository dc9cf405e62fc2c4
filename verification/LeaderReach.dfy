/** Whether a follower is connected to the leader it has registered. */
module LeaderReach {
  import opened Types
  import opened QuorumStep
  import opened NodeInvariants

  ghost predicate LeaderConnected(n: Node) {
    n.state == Follower ==>
      n.leader.Some? && n.leader.value.Remote? && n.leader.value.server.address in n.hosts
  }

  /** The follower's leader drops out while the quorum is already lost: the handler does nothing. */
  ghost predicate LosesLeaderUnderBad(n: Node, e: Event) {
    && n.state == Follower && n.health == Bad
    && e.UpdateServer? && e.server.liveness == Dead
    && n.leader.Some? && n.leader.value.Remote? && n.leader.value.server.address == e.server.address
  }

  lemma AliveConnects(n: Node, server: RpcServer, now: int)
    requires LeaderConnected(n)
    ensures LeaderConnected(OnAlive(n, server, now).node) || !OnAlive(n, server, now).publish
  {
    var n1 := TakeAwaited(n, server).node;
    assert n1.hosts == n.hosts;
    assert n1.state == Follower ==>
      n1.leader.Some? && n1.leader.value.Remote? && n1.leader.value.server.address in n.hosts.Keys + {server.address};
    var n2 := TakeRetried(n1, server).node;
    assert n2.hosts == n.hosts;
    assert n2.state == Follower ==>
      n2.leader.Some? && n2.leader.value.Remote? && n2.leader.value.server.address in n.hosts.Keys + {server.address};
  }

  lemma DeadParts(n: Node, server: RpcServer, now: int)
    requires Inv(n) && LeaderConnected(n) && server.address in n.cfg.peers && server.liveness == Dead
    ensures LeaderConnected(OnDead(n, server, now).node)
            <==> !LosesLeaderUnderBad(n, UpdateServer(server, now))
  {
    RemoveHostSize(n.hosts, server.address, n.cfg.peers);
  }

  lemma MessageConnects(n: Node, e: Event)
    requires LeaderConnected(n)
    ensures e.LeaderInfo? ==> LeaderConnected(OnLeaderInfo(n, e.addr, e.ts, e.hasQuorum).node)
    ensures e.LeaderReq? ==> LeaderConnected(OnLeaderReq(n, e.addr, e.ts).node)
    ensures e.LeaderReqAck? ==> LeaderConnected(OnLeaderReqAck(n, e.addr, e.ts).node)
    ensures e.LeaderAck? ==> LeaderConnected(OnLeaderAck(n, e.addr, e.ts).node)
  { }

  lemma PriorityConnects(n: Node, voteHost: Addr, ts: int)
    requires LeaderConnected(n)
    ensures LeaderConnected(OnLeaderSwitchPriority(n, voteHost, ts).node)
  { }

  lemma TimeoutConnects(n: Node, now: int)
    requires LeaderConnected(n)
    ensures LeaderConnected(OnCheckElectionTimeout(n, now).node)
  { }

  /** That is the one step which parts a follower from its leader. */
  lemma PartsExactlyUnderBad(n: Node, e: Event)
    requires Inv(n) && n.status == Running && ValidEvent(n, e) && LeaderConnected(n)
    ensures LeaderConnected(Step(n, e).node) <==> !LosesLeaderUnderBad(n, e)
  {
    hide OnAlive, OnDead, OnLeaderInfo, OnLeaderReq, OnLeaderReqAck, OnLeaderAck, OnLeaderSwitchPriority,
      OnCheckElectionTimeout;
    match e
    case UpdateServer(server, now) =>
      if server.liveness == Alive {
        AliveOk(n, server, now);
        AliveConnects(n, server, now);
      } else {
        DeadParts(n, server, now);
      }
    case LeaderSwitchPriority(voteHost, ts) => PriorityConnects(n, voteHost, ts);
    case CheckElectionTimeout(now) => TimeoutConnects(n, now);
    case _ => MessageConnects(n, e);
  }

  lemma {:induction false} ConnectedIfQuorumIsOne(cfg: Config, es: seq<Event>)
    requires ValidConfig(cfg) && cfg.Quorum() == 1 && ValidRun(Init(cfg), es)
    ensures LeaderConnected(Exec(Init(cfg), es))
    decreases |es|
  {
    if es == [] {
    } else {
      var before := es[..|es| - 1];
      ConnectedIfQuorumIsOne(cfg, before);
      RunKeepsInv(cfg, before);
      var n := Exec(Init(cfg), before);
      if n.status == Running {
        assert n.state == Follower ==> n.hosts.Keys != {};
        PartsExactlyUnderBad(n, es[|es| - 1]);
      }
    }
  }

  /** A host connects, announces itself as leader and drops out again. */
  function BriefLeader(a: Addr): seq<Event> {
    [UpdateServer(RpcServer(a, Alive, Some(Channel(a)), -1), 0), Event.LeaderAck(a, 0),
     UpdateServer(RpcServer(a, Dead, Some(Channel(a)), -1), 0)]
  }

  lemma BriefLeaderParts(cfg: Config, a: Addr)
    requires ValidConfig(cfg) && cfg.Quorum() >= 2 && a in cfg.peers
    ensures ValidRun(Init(cfg), BriefLeader(a))
    ensures !LeaderConnected(Exec(Init(cfg), BriefLeader(a)))
  {
    var es := BriefLeader(a);
    FirstHostAlone(cfg, es[0].server);
    UnfoldRun(Init(cfg), [], es[0]);
    UnfoldRun(Init(cfg), [es[0]], es[1]);
    UnfoldRun(Init(cfg), [es[0], es[1]], es[2]);
    assert [] + [es[0]] == [es[0]] && [es[0]] + [es[1]] == [es[0], es[1]] && [es[0], es[1]] + [es[2]] == es;
    var n1 := Step(Init(cfg), es[0]).node;
    var n2 := Step(n1, es[1]).node;
    assert n2.state == Follower && n2.health == Bad && n2.leader == RemoteAt(a, Some(Channel(a)), 0);
    assert n2.hosts - {a} == map[];
  }

  lemma FirstHostAlone(cfg: Config, server: RpcServer)
    requires cfg.Quorum() >= 2 && server.liveness == Alive
    ensures var n := Step(Init(cfg), UpdateServer(server, 0)).node;
            n.hosts == map[server.address := server] && n.health == Bad && n.leader == None
            && n.state == Undefined && n.status == Running && n.cfg == cfg
  {
    assert map[][server.address := server] == map[server.address := server];
    assert |map[server.address := server]| == 1;
  }

  /** In every reachable state a follower is connected to its leader, if and only if one other
      host is enough for a quorum, that is in clusters of two or three hosts. */
  lemma FollowersReachTheirLeaderIff(cfg: Config)
    requires ValidConfig(cfg)
    ensures (forall es :: ValidRun(Init(cfg), es) ==> LeaderConnected(Exec(Init(cfg), es)))
            <==> cfg.Clients() <= 2
  {
    if cfg.Clients() <= 2 {
      forall es | ValidRun(Init(cfg), es) ensures LeaderConnected(Exec(Init(cfg), es)) {
        ConnectedIfQuorumIsOne(cfg, es);
      }
    } else {
      var a :| a in cfg.peers;
      BriefLeaderParts(cfg, a);
    }
  }
}
