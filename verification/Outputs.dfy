/** What a message commits its sender to. */
module Outputs {
  import opened Types
  import opened QuorumStep
  import opened NodeInvariants

  /** The node has registered another host as the leader with this timestamp. */
  ghost predicate Registered(n: Node, addr: Addr, ts: int) {
    && n.leader.Some? && n.leader.value.Remote?
    && n.leader.value.server.address == addr && n.leader.value.server.electionTs == ts
  }

  /** The node stands or leads itself with this timestamp. */
  ghost predicate OwnPair(n: Node, addr: Addr, ts: int) {
    addr == n.cfg.whoami && n.leader == Some(Local(ts))
  }

  ghost predicate LeaderPair(n: Node, addr: Addr, ts: int) {
    Registered(n, addr, ts) || OwnPair(n, addr, ts)
  }

  /** The candidate that a message is about. */
  ghost predicate About(e: Event, addr: Addr, ts: int) {
    match e
    case LeaderInfo(a, t, _) => a == addr && t == ts
    case LeaderReq(a, t) => a == addr && t == ts
    case LeaderReqAck(a, t) => a == addr && t == ts
    case LeaderAck(a, t) => a == addr && t == ts
    case LeaderSwitch(a, t) => a == addr && t == ts
    case LeaderSwitchDead(a, t) => a == addr && t == ts
    case LeaderSwitchPriority(a, t) => a == addr && t == ts
    case _ => false
  }

  /** An ack for this candidate: the handler leads or stands, and the ack names it. */
  ghost predicate Counts(n: Node, e: Event) {
    && n.status == Running && n.leader.Some? && n.leader.value.Local?
    && (e.LeaderReqAck? || e.LeaderSwitchAck?) && e.addr == n.cfg.whoami
  }

  /** What may be sent on handling `e` in state `n`, given the state `m` after it. */
  ghost predicate Sound(n: Node, e: Event, m: Node, o: Output) {
    match o
    case Broadcast(req) => BroadcastSound(n, e, m, req)
    case Direct(tx, req) =>
      req.LeaderReqAck? && Registered(m, req.addr, req.ts) && tx == Channel(req.addr) && req.addr in n.cfg.peers
    case ToSelf(ev) => ev.LeaderSwitchPriority? && About(e, ev.voteHost, ev.ts)
    case Answer(accepted) =>
      accepted ==> e.LeaderReq? && Registered(m, e.addr, e.ts) && e.addr in m.hosts
    case ResetCache(_) => e.UpdateServer?
    case Report(report) => e.GetReport? && report == QuorumReport(n.health, n.state, n.leader, n.hosts)
    case Timer(_) => true
  }

  ghost predicate BroadcastSound(n: Node, e: Event, m: Node, req: RpcRequest) {
    match req
    case LeaderReq(a, t) => OwnPair(m, a, t)
    case LeaderSwitchDead(a, t) => OwnPair(m, a, t)
    case LeaderAck(a, t) =>
      OwnPair(m, a, t) && m.state == QuorumState.Leader && Counts(n, e) && n.acks + 1 >= n.cfg.Quorum()
    case LeaderReqAck(a, t) => Registered(m, a, t)
    case LeaderSwitchAck(a) =>
      a == m.cfg.whoami || (m.leader.Some? && m.leader.value.Remote? && m.leader.value.server.address == a)
    case LeaderSwitchPriority(a, t) => About(e, a, t) || LeaderPair(n, a, t)
    case LeaderSwitch(a, t) =>
      e.HostShutdown? && n.state == QuorumState.Leader && n.hosts != map[] && a == e.pick && t == e.now
    case Shutdown => e.HostShutdown?
    case _ => false
  }

  lemma AliveSound(n: Node, server: RpcServer, now: int, o: Output)
    requires Core(n) && server.tx == Some(Channel(server.address)) && server.address in n.cfg.peers
    requires o in OnAlive(n, server, now).out
    ensures Sound(n, UpdateServer(server, now), OnAlive(n, server, now).node, o)
  {
    var a := TakeAwaited(n, server);
    if a.publish {
      assert a.out != [] ==> Registered(a.node, server.address, LeaderTs(n)) && a.node.state == Follower;
      var b := TakeRetried(a.node, server);
      assert b.out != [] ==> a.out == [];
      if b.publish {
        var c := AddHost(b.node, server, now);
        assert a.out + b.out != [] ==> c.node.leader == b.node.leader;
      }
    }
  }

  lemma DeadSound(n: Node, server: RpcServer, now: int, o: Output)
    requires o in OnDead(n, server, now).out
    ensures Sound(n, UpdateServer(server, now), OnDead(n, server, now).node, o)
  { }

  lemma InfoSound(n: Node, e: Event, o: Output)
    requires Core(n) && e.LeaderInfo?
    requires o in OnLeaderInfo(n, e.addr, e.ts, e.hasQuorum).out
    ensures Sound(n, e, OnLeaderInfo(n, e.addr, e.ts, e.hasQuorum).node, o)
  { }

  lemma ReqSound(n: Node, e: Event, o: Output)
    requires Core(n) && e.LeaderReq?
    requires o in OnLeaderReq(n, e.addr, e.ts).out
    ensures Sound(n, e, OnLeaderReq(n, e.addr, e.ts).node, o)
  { }

  lemma ReqAckSound(n: Node, e: Event, o: Output)
    requires Core(n) && n.status == Running && e.LeaderReqAck?
    requires o in OnLeaderReqAck(n, e.addr, e.ts).out
    ensures Sound(n, e, OnLeaderReqAck(n, e.addr, e.ts).node, o)
  { }

  lemma TimeoutSound(n: Node, e: Event, o: Output)
    requires Core(n) && e.CheckElectionTimeout?
    requires o in OnCheckElectionTimeout(n, e.now).out
    ensures Sound(n, e, OnCheckElectionTimeout(n, e.now).node, o)
  { }

  lemma OtherSound(n: Node, e: Event, o: Output)
    requires Core(n) && n.status == Running && ValidEvent(n, e)
    requires !e.UpdateServer? && !e.CheckElectionTimeout? && !e.LeaderReq? && !e.LeaderReqAck? && !e.LeaderInfo?
    requires o in Dispatch(n, e).out
    ensures Sound(n, e, Dispatch(n, e).node, o)
  {
    hide OnUpdateServer, OnCheckElectionTimeout, OnLeaderReq, OnLeaderReqAck, OnLeaderInfo;
  }

  /** Nothing leaves a handler that its registration does not back. An ack, by broadcast, over the
      candidate's own channel or by accepting a request, names the pair registered at the end of
      that very step. A candidacy and an announcement name the handler's own pair. */
  lemma OutputsAreSound(n: Node, e: Event, o: Output)
    requires Inv(n) && n.status == Running && ValidEvent(n, e)
    requires o in Step(n, e).out
    ensures Sound(n, e, Step(n, e).node, o)
  {
    hide OnAlive, OnDead, OnLeaderInfo, OnLeaderReq, OnLeaderReqAck, OnCheckElectionTimeout,
      OnLeaderSwitch, OnLeaderSwitchDead, OnLeaderSwitchPriority, OnLeaderSwitchAck;
    match e
    case UpdateServer(server, now) =>
      if server.liveness == Alive { AliveSound(n, server, now, o); } else { DeadSound(n, server, now, o); }
    case LeaderInfo(_, _, _) => InfoSound(n, e, o);
    case LeaderReq(_, _) => ReqSound(n, e, o);
    case LeaderReqAck(_, _) => ReqAckSound(n, e, o);
    case CheckElectionTimeout(_) => TimeoutSound(n, e, o);
    case _ => OtherSound(n, e, o);
  }

  // ----- no waiting without a timeout

  /** The states that only an answer or a timeout ends. */
  predicate Waits(state: QuorumState) {
    state.LeadershipRequested? || state.Retry? || state.LeaderDead? || state.LeaderSwitch?
  }

  ghost predicate Guarded(n: Node, m: Node, out: seq<Output>) {
    Waits(m.state) && m.state != n.state ==> Timer(m.state == Retry) in out
  }

  lemma AliveGuarded(n: Node, server: RpcServer, now: int)
    ensures var a := OnAlive(n, server, now); a.publish ==> Guarded(n, a.node, a.out)
  {
    var a := TakeAwaited(n, server);
    assert a.node.state == n.state || a.node.state == Follower;
    var b := TakeRetried(a.node, server);
    assert b.node.state == a.node.state || b.node.state == Follower;
    var c := AddHost(b.node, server, now);
    assert c.out != [] ==> (a.out + b.out + c.out)[|a.out + b.out| + 1] == Timer(false);
    assert c.out == [] ==> c.node.state == b.node.state;
  }

  lemma DeadGuarded(n: Node, server: RpcServer, now: int)
    ensures var a := OnDead(n, server, now); Guarded(n, a.node, a.out)
  {
    var out := OnDead(n, server, now).out;
    assert OnDead(n, server, now).node.state.LeadershipRequested? && OnDead(n, server, now).node.state != n.state
      ==> out[1] == Timer(false);
  }

  lemma MessageGuarded(n: Node, e: Event)
    requires !e.UpdateServer?
    ensures Guarded(n, Dispatch(n, e).node, Dispatch(n, e).out)
  {
    hide OnUpdateServer;
    var out := Dispatch(n, e).out;
    assert e.LeaderReq? && n.leader.None? ==> out[0] == Timer(LeaderTx(n.hosts, e.addr).None?);
    assert e.LeaderSwitch? || e.LeaderSwitchDead? ==> out[1] == Timer(false);
    assert e.CheckElectionTimeout? && Dispatch(n, e).node.state.LeadershipRequested? && n.state == LeaderDead
      ==> out[1] == Timer(false);
  }

  /** Whenever a handler starts to wait, for acks, for a connection or for a new leader, it has set a
      timeout that will wake it up; the longer one exactly for a retry. */
  lemma WaitingHasTimeout(n: Node, e: Event)
    requires Inv(n) && n.status == Running && ValidEvent(n, e)
    ensures Guarded(n, Step(n, e).node, Step(n, e).out)
  {
    if !e.UpdateServer? {
      hide Dispatch;
      MessageGuarded(n, e);
    } else {
      hide OnAlive, OnDead;
      if e.server.liveness == Alive {
        AliveOk(n, e.server, e.now);
        AliveGuarded(n, e.server, e.now);
      } else {
        DeadGuarded(n, e.server, e.now);
      }
    }
  }

  // ----- waiting for the leader's connection

  /** The handler has begun to wait for the connection to its leader, or waits for another one's now. */
  ghost predicate BeginsToAwait(n: Node, m: Node) {
    m.state.LeaderTxAwait? && (m.leader != n.leader || m.state != n.state)
  }

  ghost predicate SetsTimeout(out: seq<Output>) {
    exists retry :: Timer(retry) in out
  }

  lemma ConflictSetsNothing(n: Node, addr: Addr, ts: int)
    ensures !SetsTimeout(ConflictOutput(n, addr, ts))
  { }

  lemma MessageAwaits(n: Node, e: Event)
    requires Core(n) && n.status == Running && !e.UpdateServer? && !e.LeaderInfo?
    requires BeginsToAwait(n, Dispatch(n, e).node)
    ensures SetsTimeout(Dispatch(n, e).out) <==> e.LeaderReqAck? && n.leader.None?
  {
    hide OnUpdateServer, OnLeaderInfo;
    var out := Dispatch(n, e).out;
    if e.LeaderReqAck? && n.leader.None? { assert out[1] == Timer(false); }
  }

  /** Of all events that make a handler wait for its leader's connection, only an ack that finds no leader
      sets a timeout. */
  lemma AwaitHasTimeoutIff(n: Node, e: Event)
    requires Inv(n) && n.status == Running && ValidEvent(n, e) && BeginsToAwait(n, Step(n, e).node)
    ensures SetsTimeout(Step(n, e).out) <==> e.LeaderReqAck? && n.leader.None?
  {
    hide OnAlive, OnDead, ConflictOutput;
    match e
    case UpdateServer(server, now) => ConnectionAwaitsNothing(n, server, now);
    case LeaderInfo(addr, ts, _) => ConflictSetsNothing(n, addr, ts);
    case _ =>
      hide Dispatch;
      MessageAwaits(n, e);
  }

  lemma ConnectionAwaitsNothing(n: Node, server: RpcServer, now: int)
    requires Inv(n) && n.status == Running && ValidEvent(n, UpdateServer(server, now))
    ensures !BeginsToAwait(n, Step(n, UpdateServer(server, now)).node)
  {
    hide OnAlive, OnDead, Inv;
    if server.liveness == Alive { AliveAwaitsNothing(n, server, now); } else { DeadAwaitsNothing(n, server, now); }
  }

  lemma AliveAwaitsNothing(n: Node, server: RpcServer, now: int)
    ensures !BeginsToAwait(n, OnAlive(n, server, now).node)
  {
    hide AddHost, LeaderAddr, LeaderTs;
    AddHostAwaitsNothing(TakeRetried(TakeAwaited(n, server).node, server).node, server, now);
  }

  lemma DeadAwaitsNothing(n: Node, server: RpcServer, now: int)
    ensures !BeginsToAwait(n, OnDead(n, server, now).node)
  { }

  lemma AddHostAwaitsNothing(n: Node, server: RpcServer, now: int)
    ensures AddHost(n, server, now).publish
    ensures var m := AddHost(n, server, now).node; m.state.LeaderTxAwait? ==> m.leader == n.leader && m.state == n.state
  { }

  /** Every handler can be made to wait without a timeout: the first message may announce or propose a host
      that is not connected. Nothing has been sent that would wake it up, and a timeout would not help. */
  lemma AwaitsInVain(cfg: Config, x: Addr, ts: int, now: int)
    requires ValidConfig(cfg) && x != cfg.whoami
    ensures forall e :: e == Event.LeaderAck(x, ts) || e == Event.LeaderSwitchPriority(x, ts) ==>
              var r := Step(Init(cfg), e);
              && ValidEvent(Init(cfg), e) && r.node.state == LeaderTxAwait(x) && !SetsTimeout(r.out)
              && Step(r.node, CheckElectionTimeout(now)).node.state == LeaderTxAwait(x)
  { }
}
