/** What a handler must do: kind by kind, which messages it owes on which event, and when its leader, its state and
    its count change. Nothing is missing and nothing is left over. */
module Duties {
  import opened Types
  import opened QuorumStep
  import opened NodeInvariants
  import opened Outputs
  import Invalidation
  import Votes

  // ----- the occasions

  ghost predicate Connects(e: Event, a: Addr) {
    e.UpdateServer? && e.server.liveness == Alive && e.server.address == a
  }

  ghost predicate Drops(e: Event, a: Addr) {
    e.UpdateServer? && e.server.liveness == Dead && e.server.address == a
  }

  ghost predicate Follows(n: Node, a: Addr) {
    n.leader.Some? && n.leader.value.Remote? && n.leader.value.server.address == a
  }

  ghost predicate KeepsQuorum(n: Node, a: Addr) {
    |n.hosts.Keys - {a}| >= n.cfg.Quorum()
  }

  /** A connection gives it a quorum, or more of it, and there is no leader. */
  ghost predicate FirstStand(n: Node, e: Event) {
    && e.UpdateServer? && e.server.liveness == Alive
    && n.leader.None? && n.health != Good && |n.hosts.Keys + {e.server.address}| >= n.cfg.Quorum()
  }

  /** The leader is lost, a quorum is left, and no other candidate was acked already. */
  ghost predicate TakesOver(n: Node, e: Event) {
    && e.UpdateServer? && e.server.liveness == Dead
    && Follows(n, e.server.address) && KeepsQuorum(n, e.server.address) && n.state != LeaderDead
  }

  /** The candidate that was acked after the leader's death has not made it in time. */
  ghost predicate TakesOverLate(n: Node, e: Event) {
    e.CheckElectionTimeout? && n.state == LeaderDead && |n.hosts.Keys| >= n.cfg.Quorum()
  }

  /** The host that a leader voted for before its shutdown has not made it in time. */
  ghost predicate StandsAfterSwitch(n: Node, e: Event) {
    e.CheckElectionTimeout? && n.state == QuorumState.LeaderSwitch && n.leader.Some? && n.health != Bad
  }

  ghost predicate BeginsCandidacy(n: Node, e: Event) {
    FirstStand(n, e) || TakesOver(n, e) || TakesOverLate(n, e) || StandsAfterSwitch(n, e)
  }

  ghost predicate LosesQuorum(n: Node, e: Event) {
    e.UpdateServer? && e.server.liveness == Dead && !KeepsQuorum(n, e.server.address) && n.health != Bad
  }

  /** A switch is due, but there is no quorum to stand with. */
  ghost predicate Withdraws(n: Node, e: Event) {
    e.CheckElectionTimeout? && n.state == QuorumState.LeaderSwitch && n.leader.Some? && n.health == Bad
  }

  /** A proposal counts if there is no settled leader, or if it is earlier than that one. */
  ghost predicate Prefers(n: Node, e: Event) {
    && e.LeaderSwitchPriority?
    && (|| n.state == LeaderDead || n.state == QuorumState.LeaderSwitch || n.state == Undefined || n.state == Retry
        || (n.leader.Some? && e.ts < LeaderTs(n) && n.state != LeaderTxAwait(e.voteHost)))
  }

  /** The pair that a message names becomes the leader. */
  ghost predicate Adopts(n: Node, e: Event, a: Addr, t: int) {
    && About(e, a, t)
    && match e
       case LeaderInfo(_, _, hasQuorum) =>
         n.leader.None? || (hasQuorum && (n.state == Undefined || n.state == Retry) && a != n.cfg.whoami)
       case LeaderReq(_, _) => n.leader.None?
       case LeaderReqAck(_, _) => n.leader.None?
       case LeaderSwitchPriority(_, _) => Prefers(n, e)
       case _ => true
  }

  /** The ack that completes the quorum of a candidate or leader, or one more. */
  ghost predicate Announces(n: Node, e: Event) {
    Counts(n, e) && n.acks + 1 >= n.cfg.Quorum()
  }

  /** Another candidate is named than the one that is registered, or the same again. */
  ghost predicate Objects(n: Node, e: Event) {
    (e.LeaderInfo? || e.LeaderReq? || e.LeaderReqAck?) && n.leader.Some?
  }

  /** The leader whose request came too early, `a` with timestamp `t`, is found to be connected. */
  ghost predicate FindsRetried(n: Node, e: Event, a: Addr, t: int) {
    n.state == Retry && Registered(n, a, t) && (Connects(e, a) || (e.CheckElectionTimeout? && a in n.hosts))
  }

  ghost predicate FindsAwaited(n: Node, e: Event, a: Addr, t: int) {
    n.state == LeaderTxAwait(a) && Registered(n, a, t) && Connects(e, a)
  }

  // ----- the messages, kind by kind

  ghost predicate Owed(n: Node, e: Event, o: Output) {
    match o
    case Broadcast(req) => OwedToAll(n, e, req)
    case Direct(tx, req) =>
      && req.LeaderReqAck? && tx == Channel(req.addr)
      && (|| (e.LeaderInfo? && Adopts(n, e, req.addr, req.ts) && req.addr in n.hosts)
          || FindsAwaited(n, e, req.addr, req.ts))
    case ToSelf(ev) => Objects(n, e) && e.ts < LeaderTs(n) && ev == Event.LeaderSwitchPriority(e.addr, e.ts)
    case Timer(retry) =>
      if e.LeaderReq? then n.leader.None? && (retry <==> e.addr !in n.hosts)
      else !retry && WaitsAnew(n, e)
    case ResetCache(name) => LosesQuorum(n, e) && name in n.cfg.caches
    case Answer(accepted) => e.LeaderReq? && (accepted <==> n.leader.None? && e.addr in n.hosts)
    case Report(report) => e.GetReport? && report == QuorumReport(n.health, n.state, n.leader, n.hosts)
  }

  /** Something begins that has to be over in time. */
  ghost predicate WaitsAnew(n: Node, e: Event) {
    || BeginsCandidacy(n, e)
    || (e.CheckElectionTimeout? && n.state.LeadershipRequested?)
    || (e.CheckElectionTimeout? && exists a, t :: FindsRetried(n, e, a, t))
    || (e.LeaderReqAck? && n.leader.None?)
    || e.LeaderSwitch? || e.LeaderSwitchDead?
  }

  ghost predicate OwedToAll(n: Node, e: Event, req: RpcRequest) {
    match req
    case LeaderReq(a, t) =>
      && a == n.cfg.whoami
      && (|| ((FirstStand(n, e) || StandsAfterSwitch(n, e)) && t == e.now)
          || (e.CheckElectionTimeout? && n.state == LeadershipRequested(t)))
    case LeaderSwitchDead(a, t) => a == n.cfg.whoami && (TakesOver(n, e) || TakesOverLate(n, e)) && t == e.now
    case LeaderReqAck(a, t) =>
      || ((e.LeaderReqAck? || e.LeaderSwitchDead?) && Adopts(n, e, a, t))
      || (e.LeaderSwitchPriority? && Adopts(n, e, a, t) && a != n.cfg.whoami)
      || FindsRetried(n, e, a, t)
    case LeaderAck(a, t) => a == n.cfg.whoami && Announces(n, e) && n.leader == Some(Local(t))
    case LeaderSwitchAck(a) => e.LeaderSwitch? && e.voteHost == a
    case LeaderSwitchPriority(a, t) =>
      && Objects(n, e)
      && (if e.ts < LeaderTs(n) then a == e.addr && t == e.ts else a == LeaderAddr(n) && t == LeaderTs(n))
    case LeaderSwitch(a, t) =>
      e.HostShutdown? && n.state == QuorumState.Leader && n.hosts != map[] && a == e.pick && t == e.now
    case Shutdown => e.HostShutdown?
    case _ => false
  }

  lemma AddHostSends(n: Node, server: RpcServer, now: int)
    requires server.liveness == Alive
    ensures AddHost(n, server, now).out
         == if FirstStand(n, UpdateServer(server, now))
            then [Broadcast(RpcRequest.LeaderReq(n.cfg.whoami, now)), Timer(false)] else []
  {
    assert n.hosts[server.address := server].Keys == n.hosts.Keys + {server.address};
  }

  lemma PlainConnectionOwes(n: Node, server: RpcServer, now: int, o: Output)
    requires Inv(n) && server.liveness == Alive && server.tx == Some(Channel(server.address))
    requires n.state != LeaderTxAwait(server.address) && !(n.state == Retry && Follows(n, server.address))
    ensures o in AddHost(n, server, now).out <==> Owed(n, UpdateServer(server, now), o)
  {
    AddHostSends(n, server, now);
    hide Inv, AddHost, FirstStand, KeepsQuorum;
  }

  lemma FoundOwes(n: Node, server: RpcServer, now: int, o: Output)
    requires Inv(n) && server.liveness == Alive && server.tx == Some(Channel(server.address))
    requires n.state == LeaderTxAwait(server.address) || (n.state == Retry && Follows(n, server.address))
    ensures var ack := RpcRequest.LeaderReqAck(server.address, LeaderTs(n));
            o == (if n.state == Retry then Broadcast(ack) else Direct(Channel(server.address), ack))
            <==> Owed(n, UpdateServer(server, now), o)
  { }

  lemma FoundSends(n: Node, server: RpcServer, now: int)
    requires Inv(n) && server.tx == Some(Channel(server.address))
    requires n.state == LeaderTxAwait(server.address) || (n.state == Retry && Follows(n, server.address))
    ensures var ack := RpcRequest.LeaderReqAck(server.address, LeaderTs(n));
            OnAlive(n, server, now).out
            == [if n.state == Retry then Broadcast(ack) else Direct(Channel(server.address), ack)]
  {
    var a := TakeAwaited(n, server);
    var b := TakeRetried(a.node, server);
    assert a.publish && b.publish && b.node.leader.Some?;
    assert AddHost(b.node, server, now).out == [];
  }

  lemma ConnectionOwes(n: Node, server: RpcServer, now: int, o: Output)
    requires Inv(n) && n.status == Running && ValidEvent(n, UpdateServer(server, now)) && server.liveness == Alive
    ensures o in OnAlive(n, server, now).out <==> Owed(n, UpdateServer(server, now), o)
  {
    hide Owed, AddHost;
    if n.state == LeaderTxAwait(server.address) || (n.state == Retry && Follows(n, server.address)) {
      FoundOwes(n, server, now, o);
      FoundSends(n, server, now);
    } else {
      hide Inv;
      PlainConnectionOwes(n, server, now, o);
      PlainConnectionSends(n, server, now);
    }
  }

  lemma PlainConnectionSends(n: Node, server: RpcServer, now: int)
    requires Inv(n) && n.state != LeaderTxAwait(server.address) && !(n.state == Retry && Follows(n, server.address))
    ensures OnAlive(n, server, now).out == AddHost(n, server, now).out
  {
    hide AddHost;
    assert TakeAwaited(n, server) == Arm(n, [], true) && TakeRetried(n, server) == Arm(n, [], true);
    AddHostPublishes(n, server, now);
    assert [] + [] + AddHost(n, server, now).out == AddHost(n, server, now).out;
  }

  lemma AddHostPublishes(n: Node, server: RpcServer, now: int)
    ensures AddHost(n, server, now).publish
  { }

  lemma LossSends(n: Node, server: RpcServer, now: int)
    requires server.liveness == Dead
    ensures var e := UpdateServer(server, now);
            OnDead(n, server, now).out
            == if TakesOver(n, e) then [Broadcast(RpcRequest.LeaderSwitchDead(n.cfg.whoami, now)), Timer(false)]
               else if LosesQuorum(n, e) then Resets(n.cfg.caches) else []
  {
    hide Resets;
    assert (n.hosts - {server.address}).Keys == n.hosts.Keys - {server.address};
  }

  lemma LossOwes(n: Node, server: RpcServer, now: int, o: Output)
    requires Inv(n) && ValidEvent(n, UpdateServer(server, now)) && server.liveness == Dead
    ensures o in OnDead(n, server, now).out <==> Owed(n, UpdateServer(server, now), o)
  {
    hide Inv, Resets, OnDead, KeepsQuorum, Follows;
    LossSends(n, server, now);
    ResetsAre(n.cfg.caches, o);
  }

  lemma ResetsAre(caches: seq<string>, o: Output)
    ensures o in Resets(caches) <==> o.ResetCache? && o.name in caches
  {
    if o.ResetCache? && o.name in caches {
      var i :| 0 <= i < |caches| && caches[i] == o.name;
      assert Resets(caches)[i] == o;
    }
  }

  lemma TimeoutOwes(n: Node, now: int, o: Output)
    requires Inv(n)
    ensures o in OnCheckElectionTimeout(n, now).out <==> Owed(n, CheckElectionTimeout(now), o)
  {
    var e := CheckElectionTimeout(now);
    if n.state == Retry {
      var l := n.leader.value.server;
      assert FindsRetried(n, e, l.address, l.electionTs) <==> l.address in n.hosts;
    }
  }

  lemma ChannelIff(n: Node, a: Addr)
    requires Inv(n)
    ensures LeaderTx(n.hosts, a) == if a in n.hosts then Some(Channel(a)) else None
  { }

  lemma InfoOwes(n: Node, e: Event, o: Output)
    requires Inv(n) && n.status == Running && e.LeaderInfo?
    ensures o in OnLeaderInfo(n, e.addr, e.ts, e.hasQuorum).out <==> Owed(n, e, o)
  {
    hide Inv;
    ChannelIff(n, e.addr);
  }

  lemma ReqOwes(n: Node, e: Event, o: Output)
    requires Inv(n) && n.status == Running && e.LeaderReq?
    ensures o in OnLeaderReq(n, e.addr, e.ts).out <==> Owed(n, e, o)
  {
    hide Inv;
    ChannelIff(n, e.addr);
  }

  lemma ReqAckOwes(n: Node, e: Event, o: Output)
    requires Inv(n) && n.status == Running && e.LeaderReqAck?
    ensures o in OnLeaderReqAck(n, e.addr, e.ts).out <==> Owed(n, e, o)
  {
    hide Inv;
  }

  lemma PriorityOwes(n: Node, e: Event, o: Output)
    requires Inv(n) && n.status == Running && e.LeaderSwitchPriority?
    ensures o in OnLeaderSwitchPriority(n, e.voteHost, e.ts).out <==> Owed(n, e, o)
  { }

  lemma OtherOwes(n: Node, e: Event, o: Output)
    requires Inv(n) && n.status == Running && ValidEvent(n, e) && !e.UpdateServer? && !e.CheckElectionTimeout?
    requires !e.LeaderInfo? && !e.LeaderReq? && !e.LeaderReqAck? && !e.LeaderSwitchPriority?
    ensures o in Dispatch(n, e).out <==> Owed(n, e, o)
  {
    hide OnUpdateServer, OnCheckElectionTimeout, OnLeaderInfo, OnLeaderReq, OnLeaderReqAck, OnLeaderSwitchPriority, Inv;
  }

  /** A handler sends exactly what it owes. */
  lemma SendsExactlyWhatItOwes(n: Node, e: Event, o: Output)
    requires Inv(n) && n.status == Running && ValidEvent(n, e)
    ensures o in Step(n, e).out <==> Owed(n, e, o)
  {
    hide OnAlive, OnDead, Owed, OnCheckElectionTimeout, OnLeaderInfo, OnLeaderReq, OnLeaderReqAck,
      OnLeaderSwitchPriority;
    match e
    case UpdateServer(server, now) =>
      if server.liveness == Alive { ConnectionOwes(n, server, now, o); } else { LossOwes(n, server, now, o); }
    case CheckElectionTimeout(now) => TimeoutOwes(n, now, o);
    case LeaderInfo(_, _, _) => InfoOwes(n, e, o);
    case LeaderReq(_, _) => ReqOwes(n, e, o);
    case LeaderReqAck(_, _) => ReqAckOwes(n, e, o);
    case LeaderSwitchPriority(_, _) => PriorityOwes(n, e, o);
    case _ =>
      hide Dispatch;
      OtherOwes(n, e, o);
  }

  // ----- the leader and the state

  function ChannelTo(n: Node, a: Addr): Option<Channel> {
    if a in n.hosts then Some(Channel(a)) else None
  }

  /** The same candidate is registered, with the same timestamp, or none as before. */
  ghost predicate SameLeader(n: Node, m: Node) {
    && (m.leader.None? <==> n.leader.None?)
    && forall a, t :: (Registered(m, a, t) <==> Registered(n, a, t)) && (OwnPair(m, a, t) <==> OwnPair(n, a, t))
  }

  ghost predicate LeaderMoves(n: Node, e: Event, m: Node) {
    if exists a, t :: Adopts(n, e, a, t) then
      forall a, t :: Adopts(n, e, a, t) ==>
        m.leader == if a == n.cfg.whoami && (e.LeaderSwitch? || e.LeaderSwitchPriority?) then Some(Local(t))
                    else RemoteAt(a, ChannelTo(n, a), t)
    else if BeginsCandidacy(n, e) then (e.UpdateServer? || e.CheckElectionTimeout?) && m.leader == Some(Local(e.now))
    else if LosesQuorum(n, e) || Withdraws(n, e) then m.leader == None
    else SameLeader(n, m)
  }

  /** What makes a handler enter the state `s`, whatever it was in before. */
  ghost predicate Enters(n: Node, e: Event, s: QuorumState) {
    match s
    case Leader => Announces(n, e) || (e.LeaderSwitchPriority? && Prefers(n, e) && e.voteHost == n.cfg.whoami)
    case LeadershipRequested(t) =>
      (FirstStand(n, e) || TakesOver(n, e) || TakesOverLate(n, e)) && t == e.now
    case LeaderSwitch => e.LeaderSwitch?
    case LeaderDead => e.LeaderSwitchDead?
    case Retry => e.LeaderReq? && n.leader.None? && e.addr !in n.hosts
    case Undefined =>
      || LosesQuorum(n, e)
      || (e.CheckElectionTimeout? && n.state == Retry && !exists a, t :: FindsRetried(n, e, a, t))
    case LeaderTxAwait(a) =>
      || (e.LeaderReqAck? && n.leader.None? && e.addr == a)
      || (TakesWord(n, e, a) && a !in n.hosts)
    case Follower =>
      || (exists a :: TakesWord(n, e, a) && a in n.hosts)
      || (exists a, t :: FindsAwaited(n, e, a, t) || FindsRetried(n, e, a, t))
  }

  /** It follows `a` from now on, if it is connected to it: because `a` leads, or is to lead. */
  ghost predicate TakesWord(n: Node, e: Event, a: Addr) {
    && (e.LeaderInfo? || e.LeaderAck? || (e.LeaderSwitchPriority? && a != n.cfg.whoami))
    && exists t :: Adopts(n, e, a, t)
  }

  ghost predicate StateMoves(n: Node, e: Event, m: Node) {
    && (forall s :: Enters(n, e, s) ==> m.state == s)
    && (m.state != n.state ==> Enters(n, e, m.state))
  }

  lemma FoundMoves(n: Node, server: RpcServer, now: int)
    requires Inv(n) && n.status == Running && server.liveness == Alive && server.tx == Some(Channel(server.address))
    requires n.state == LeaderTxAwait(server.address) || (n.state == Retry && Follows(n, server.address))
    ensures var m := OnAlive(n, server, now).node;
            m.leader == RemoteAt(server.address, server.tx, LeaderTs(n)) && m.state == Follower
  { }

  lemma PlainConnectionMoves(n: Node, server: RpcServer, now: int)
    requires Inv(n) && n.state != LeaderTxAwait(server.address) && !(n.state == Retry && Follows(n, server.address))
    ensures var m := OnAlive(n, server, now).node;
            if FirstStand(n, UpdateServer(server, now)) && server.liveness == Alive
            then m.leader == Some(Local(now)) && m.state == LeadershipRequested(now)
            else server.liveness == Alive ==> m.leader == n.leader && m.state == n.state
  {
    assert n.hosts[server.address := server].Keys == n.hosts.Keys + {server.address};
  }

  /** A connection makes a handler do nothing else. */
  lemma ConnectionEntersNothingElse(n: Node, e: Event)
    requires Inv(n) && e.UpdateServer? && e.server.liveness == Alive
    ensures !exists a, t :: Adopts(n, e, a, t)
    ensures !LosesQuorum(n, e) && !Withdraws(n, e) && (BeginsCandidacy(n, e) <==> FirstStand(n, e))
    ensures var found := n.state == LeaderTxAwait(e.server.address)
                         || (n.state == Retry && Follows(n, e.server.address));
            && !(found && FirstStand(n, e))
            && forall s :: Enters(n, e, s)
                           <==> (FirstStand(n, e) && s == LeadershipRequested(e.now)) || (found && s == Follower)
  {
    hide HostsOk, FollowsThrough, HealthOf, SnapshotFaithful, KeepsQuorum;
    if n.leader.Some? && n.leader.value.Remote? {
      var l := n.leader.value.server;
      assert FindsRetried(n, e, l.address, l.electionTs)
             <==> n.state == Retry && Follows(n, e.server.address);
      assert FindsAwaited(n, e, l.address, l.electionTs) <==> n.state == LeaderTxAwait(e.server.address);
    }
  }

  lemma ConnectionMoves(n: Node, server: RpcServer, now: int)
    requires Inv(n) && n.status == Running && ValidEvent(n, UpdateServer(server, now)) && server.liveness == Alive
    ensures var e := UpdateServer(server, now);
            var m := OnAlive(n, server, now).node;
            m.cfg == n.cfg ==> LeaderMoves(n, e, m) && StateMoves(n, e, m)
  {
    hide OnAlive, LeaderAddr, Enters, Adopts, FirstStand, LosesQuorum, Withdraws, BeginsCandidacy;
    ConnectionEntersNothingElse(n, UpdateServer(server, now));
    if n.state == LeaderTxAwait(server.address) || (n.state == Retry && Follows(n, server.address)) {
      FoundMoves(n, server, now);
    } else {
      PlainConnectionMoves(n, server, now);
    }
  }

  lemma LossFacts(n: Node, server: RpcServer, now: int)
    requires server.liveness == Dead
    ensures var e := UpdateServer(server, now);
            var m := OnDead(n, server, now).node;
            && (TakesOver(n, e) ==> m.leader == Some(Local(now)) && m.state == LeadershipRequested(now))
            && (LosesQuorum(n, e) ==> m.leader == None && m.state == Undefined)
            && (!TakesOver(n, e) && !LosesQuorum(n, e) ==> m.leader == n.leader && m.state == n.state)
            && m.cfg == n.cfg && !(TakesOver(n, e) && LosesQuorum(n, e))
  {
    hide Resets;
    assert (n.hosts - {server.address}).Keys == n.hosts.Keys - {server.address};
  }

  /** Losing a host makes a handler do nothing else. */
  lemma LossEntersNothingElse(n: Node, e: Event)
    requires e.UpdateServer? && e.server.liveness == Dead
    ensures !exists a, t :: Adopts(n, e, a, t)
    ensures BeginsCandidacy(n, e) <==> TakesOver(n, e)
    ensures !Withdraws(n, e)
    ensures forall s :: Enters(n, e, s) <==> (TakesOver(n, e) && s == LeadershipRequested(e.now))
                                             || (LosesQuorum(n, e) && s == Undefined)
  {
    hide TakesOver, LosesQuorum;
  }

  lemma LossMoves(n: Node, server: RpcServer, now: int)
    requires Inv(n) && ValidEvent(n, UpdateServer(server, now)) && server.liveness == Dead
    ensures var e := UpdateServer(server, now);
            var m := OnDead(n, server, now).node; LeaderMoves(n, e, m) && StateMoves(n, e, m)
  {
    hide Inv, OnDead, TakesOver, LosesQuorum, Adopts, BeginsCandidacy, Withdraws, Enters;
    var e := UpdateServer(server, now);
    LossFacts(n, server, now);
    LossEntersNothingElse(n, e);
    SameIsSame(n, OnDead(n, server, now).node);
    hide SameLeader;
  }

  lemma SameIsSame(n: Node, m: Node)
    ensures m.leader == n.leader && m.cfg == n.cfg ==> SameLeader(n, m)
  { }

  /** The early candidate has connected in the meantime. */
  ghost predicate Finds(n: Node) {
    n.state == Retry && n.leader.Some? && LeaderAddr(n) in n.hosts
  }

  lemma FoundChannel(n: Node)
    requires Inv(n) && n.state == Retry
    ensures n.leader.Some? && n.leader.value.Remote?
    ensures LeaderTx(n.hosts, n.leader.value.server.address).Some? <==> Finds(n)
  { }

  lemma TimeoutFacts(n: Node, now: int)
    requires Inv(n)
    ensures var e := CheckElectionTimeout(now);
            var m := OnCheckElectionTimeout(n, now).node;
            && (TakesOverLate(n, e) ==> m.leader == Some(Local(now)) && m.state == LeadershipRequested(now))
            && (StandsAfterSwitch(n, e) ==> m.leader == Some(Local(now)) && m.state == n.state)
            && (Withdraws(n, e) ==> m.leader == None && m.state == n.state)
            && (n.state == Retry ==> m.state == if Finds(n) then Follower else Undefined)
            && (!BeginsCandidacy(n, e) && !Withdraws(n, e) ==> SameLeader(n, m))
            && (!TakesOverLate(n, e) && n.state != Retry ==> m.state == n.state)
            && m.cfg == n.cfg
  {
    hide HostsOk, FollowsThrough, HealthOf, SnapshotFaithful, FirstStand, TakesOver, LeaderTx;
    if n.state == Retry { FoundChannel(n); }
  }

  /** A timeout makes a handler do nothing else. */
  lemma TimeoutEntersNothingElse(n: Node, e: Event)
    requires Inv(n) && e.CheckElectionTimeout?
    ensures !exists a, t :: Adopts(n, e, a, t)
    ensures !LosesQuorum(n, e) && (BeginsCandidacy(n, e) <==> TakesOverLate(n, e) || StandsAfterSwitch(n, e))
    ensures !(TakesOverLate(n, e) && n.state == Retry)
    ensures forall s :: Enters(n, e, s)
                        <==> (TakesOverLate(n, e) && s == LeadershipRequested(e.now))
                             || (n.state == Retry && s == if Finds(n) then Follower else Undefined)
  {
    hide StandsAfterSwitch, HostsOk, FollowsThrough, HealthOf, SnapshotFaithful;
    if Finds(n) { assert FindsRetried(n, e, LeaderAddr(n), LeaderTs(n)); }
  }

  lemma TimeoutMoves(n: Node, now: int)
    requires Inv(n)
    ensures var e := CheckElectionTimeout(now);
            var m := OnCheckElectionTimeout(n, now).node; LeaderMoves(n, e, m) && StateMoves(n, e, m)
  {
    hide Inv, OnCheckElectionTimeout, TakesOverLate, StandsAfterSwitch, BeginsCandidacy, Withdraws, LosesQuorum, Adopts,
      Enters, SameLeader, Finds;
    TimeoutFacts(n, now);
    TimeoutEntersNothingElse(n, CheckElectionTimeout(now));
  }

  /** The message is about one pair, and adopting that pair or not is all that it does to the leader. */
  lemma AboutOne(n: Node, e: Event, a: Addr, t: int)
    requires About(e, a, t)
    ensures (exists x, u :: Adopts(n, e, x, u)) <==> Adopts(n, e, a, t)
    ensures forall x, u :: Adopts(n, e, x, u) ==> x == a && u == t
  { }

  lemma InfoMoves(n: Node, e: Event)
    requires Inv(n) && e.LeaderInfo?
    ensures var m := OnLeaderInfo(n, e.addr, e.ts, e.hasQuorum).node; LeaderMoves(n, e, m) && StateMoves(n, e, m)
  {
    hide Inv, ConflictOutput;
    AboutOne(n, e, e.addr, e.ts);
    ChannelIff(n, e.addr);
    assert Adopts(n, e, e.addr, e.ts) ==> TakesWord(n, e, e.addr);
  }

  lemma ReqMoves(n: Node, e: Event)
    requires Inv(n) && e.LeaderReq?
    ensures var m := OnLeaderReq(n, e.addr, e.ts).node; LeaderMoves(n, e, m) && StateMoves(n, e, m)
  {
    hide Inv, ConflictOutput;
    AboutOne(n, e, e.addr, e.ts);
    ChannelIff(n, e.addr);
  }

  lemma ReqAckMoves(n: Node, e: Event)
    requires Inv(n) && n.status == Running && e.LeaderReqAck?
    ensures var m := OnLeaderReqAck(n, e.addr, e.ts).node; LeaderMoves(n, e, m) && StateMoves(n, e, m)
  {
    hide Inv, ConflictOutput;
    AboutOne(n, e, e.addr, e.ts);
    ChannelIff(n, e.addr);
  }

  lemma PriorityMoves(n: Node, e: Event)
    requires Inv(n) && e.LeaderSwitchPriority?
    ensures var m := OnLeaderSwitchPriority(n, e.voteHost, e.ts).node; LeaderMoves(n, e, m) && StateMoves(n, e, m)
  {
    AboutOne(n, e, e.voteHost, e.ts);
    ChannelIff(n, e.voteHost);
    assert DoSwitch(n, e.voteHost, e.ts) == Some(Prefers(n, e));
    hide Inv, DoSwitch;
    assert Adopts(n, e, e.voteHost, e.ts) && e.voteHost != n.cfg.whoami ==> TakesWord(n, e, e.voteHost);
  }

  lemma AckMoves(n: Node, e: Event)
    requires Inv(n) && e.LeaderAck?
    ensures var m := OnLeaderAck(n, e.addr, e.ts).node; LeaderMoves(n, e, m) && StateMoves(n, e, m)
  {
    hide Inv;
    AboutOne(n, e, e.addr, e.ts);
    ChannelIff(n, e.addr);
    assert TakesWord(n, e, e.addr);
  }

  lemma SwitchMoves(n: Node, e: Event)
    requires Inv(n) && (e.LeaderSwitch? || e.LeaderSwitchDead?)
    ensures var m := Dispatch(n, e).node; LeaderMoves(n, e, m) && StateMoves(n, e, m)
  {
    hide Inv;
    AboutOne(n, e, e.voteHost, e.ts);
    ChannelIff(n, e.voteHost);
  }

  lemma OtherMoves(n: Node, e: Event)
    requires Inv(n) && n.status == Running
    requires e.LeaderSwitchAck? || e.HostShutdown? || e.GetReport? || e.Print?
    ensures var m := Dispatch(n, e).node; LeaderMoves(n, e, m) && StateMoves(n, e, m)
  {
    hide Inv;
  }

  /** The leader changes exactly when the handler adopts one, begins a candidacy, loses its quorum or withdraws; the
      state exactly when something makes it enter another one. */
  lemma MovesExactly(n: Node, e: Event)
    requires Inv(n) && n.status == Running && ValidEvent(n, e)
    ensures LeaderMoves(n, e, Step(n, e).node) && StateMoves(n, e, Step(n, e).node)
  {
    hide OnAlive, OnDead, OnCheckElectionTimeout, OnLeaderInfo, OnLeaderReq, OnLeaderReqAck, OnLeaderSwitchPriority,
      OnLeaderAck, LeaderMoves, StateMoves;
    var arm := Dispatch(n, e);
    match e {
      case UpdateServer(server, now) =>
        if server.liveness == Alive { AliveOk(n, server, now); ConnectionMoves(n, server, now); }
        else { LossMoves(n, server, now); }
      case CheckElectionTimeout(now) => TimeoutMoves(n, now);
      case LeaderInfo(_, _, _) => InfoMoves(n, e);
      case LeaderReq(_, _) => ReqMoves(n, e);
      case LeaderReqAck(_, _) => ReqAckMoves(n, e);
      case LeaderSwitchPriority(_, _) => PriorityMoves(n, e);
      case LeaderAck(_, _) => AckMoves(n, e);
      case LeaderSwitch(_, _) => SwitchMoves(n, e);
      case LeaderSwitchDead(_, _) => SwitchMoves(n, e);
      case _ => OtherMoves(n, e);
    }
    StepMoves(n, e);
  }

  /** Publishing and counting the connected hosts change neither. */
  lemma StepMoves(n: Node, e: Event)
    requires n.status == Running
    ensures var a := if !e.UpdateServer? then Dispatch(n, e)
                     else if e.server.liveness == Alive then OnAlive(n, e.server, e.now)
                     else OnDead(n, e.server, e.now);
            (LeaderMoves(n, e, a.node) ==> LeaderMoves(n, e, Step(n, e).node))
            && (StateMoves(n, e, a.node) ==> StateMoves(n, e, Step(n, e).node))
  {
    hide OnAlive, OnDead, Adopts, BeginsCandidacy, Enters, LosesQuorum, Withdraws;
    hide OnCheckElectionTimeout, OnLeaderInfo, OnLeaderReq, OnLeaderReqAck, OnLeaderSwitchPriority,
      OnLeaderAck, OnLeaderSwitch, OnLeaderSwitchDead, OnLeaderSwitchAck, OnHostShutdown;
  }

  // ----- the count and the connected hosts

  /** The count starts anew with a leader, a vote for the handler itself, a first candidacy, the loss of the leader or
      of the quorum; else it is one more for every ack that the handler counts. */
  lemma CountMoves(n: Node, e: Event)
    requires Inv(n) && n.status == Running && ValidEvent(n, e)
    ensures Step(n, e).node.acks
         == if e.LeaderAck? || (e.LeaderSwitch? && e.voteHost == n.cfg.whoami) || FirstStand(n, e) || LosesQuorum(n, e)
               || (e.UpdateServer? && Drops(e, e.server.address)
                   && Follows(n, e.server.address) && KeepsQuorum(n, e.server.address))
            then 0
            else n.acks + if Counts(n, e) then 1 else 0
  {
    hide Step, Inv, Counts, Votes.Discards, FirstStand, LosesQuorum, Follows, KeepsQuorum;
    Votes.StepCounts(n, e);
    DiscardsWhen(n, e);
  }

  lemma DiscardsWhen(n: Node, e: Event)
    requires n.status == Running
    ensures Votes.Discards(n, e)
            <==> || e.LeaderAck? || (e.LeaderSwitch? && e.voteHost == n.cfg.whoami) || FirstStand(n, e)
                 || LosesQuorum(n, e)
                 || (e.UpdateServer? && Drops(e, e.server.address)
                     && Follows(n, e.server.address) && KeepsQuorum(n, e.server.address))
  {
    if e.UpdateServer? {
      var a := e.server.address;
      assert n.hosts[a := e.server].Keys == n.hosts.Keys + {a};
      assert (n.hosts - {a}).Keys == n.hosts.Keys - {a};
    }
  }

  lemma HostsMove(n: Node, e: Event)
    requires Inv(n) && n.status == Running && ValidEvent(n, e)
    ensures var m := Step(n, e).node;
            forall a :: a in m.hosts <==> Connects(e, a) || (a in n.hosts && !Drops(e, a))
  {
    hide OnCheckElectionTimeout, OnLeaderInfo, OnLeaderReq, OnLeaderReqAck, OnLeaderSwitchPriority, OnLeaderAck,
      OnLeaderSwitch, OnLeaderSwitchDead, OnLeaderSwitchAck, OnHostShutdown, OnAlive, OnDead;
    if e.UpdateServer? {
      UpdateMovesHosts(n, e.server, e.now);
    } else {
      Invalidation.MessagesKeepHosts(n, e);
    }
  }

  lemma UpdateMovesHosts(n: Node, server: RpcServer, now: int)
    requires Inv(n) && ValidEvent(n, UpdateServer(server, now))
    ensures server.liveness == Alive ==> OnAlive(n, server, now).node.hosts == n.hosts[server.address := server]
    ensures server.liveness == Dead ==> OnDead(n, server, now).node.hosts == n.hosts - {server.address}
  {
    if server.liveness == Alive {
      TakeAwaitedOk(n, server);
      var n1 := TakeAwaited(n, server).node;
      TakeRetriedOk(n1, server);
      PartsKeepHosts(n, server, now);
      PartsKeepHosts(n1, server, now);
      PartsKeepHosts(TakeRetried(n1, server).node, server, now);
      hide TakeAwaited, TakeRetried, AddHost, Inv, ArmOk;
    } else {
      hide Inv;
    }
  }

  lemma PartsKeepHosts(n: Node, server: RpcServer, now: int)
    ensures TakeAwaited(n, server).node.hosts == n.hosts && TakeRetried(n, server).node.hosts == n.hosts
    ensures AddHost(n, server, now).node.hosts == n.hosts[server.address := server]
  { }

  // ----- nothing is sent twice

  lemma LossIsDistinct(n: Node, server: RpcServer, now: int)
    requires Distinct(n.cfg.caches)
    ensures Distinct(OnDead(n, server, now).out)
  { }

  lemma AddHostIsDistinct(n: Node, server: RpcServer, now: int)
    ensures Distinct(AddHost(n, server, now).out)
  { }

  lemma ConnectionIsDistinct(n: Node, server: RpcServer, now: int)
    requires Inv(n) && server.tx == Some(Channel(server.address))
    ensures Distinct(OnAlive(n, server, now).out)
  {
    hide Inv, OnAlive;
    AddHostIsDistinct(n, server, now);
    hide AddHost;
    if n.state == LeaderTxAwait(server.address) || (n.state == Retry && Follows(n, server.address)) {
      FoundSends(n, server, now);
    } else {
      PlainConnectionSends(n, server, now);
    }
  }

  lemma MessageIsDistinct(n: Node, e: Event)
    requires !e.UpdateServer?
    ensures Distinct(Dispatch(n, e).out)
  {
    hide OnUpdateServer;
  }

  /** No message is sent twice; so nobody is acked twice by one step. */
  lemma NothingTwice(n: Node, e: Event)
    requires Inv(n) && ValidEvent(n, e) && Distinct(n.cfg.caches)
    ensures Distinct(Step(n, e).out)
  {
    hide OnAlive, OnDead;
    if e.UpdateServer? {
      if e.server.liveness == Alive { ConnectionIsDistinct(n, e.server, e.now); }
      else { LossIsDistinct(n, e.server, e.now); }
    } else {
      hide Dispatch;
      MessageIsDistinct(n, e);
    }
  }

  // ----- what follows from it

  /** A handler whose leader drops out while a quorum is left stands at once, says so to all and sets a timeout. */
  lemma LeaderLossIsAnswered(n: Node, server: RpcServer, now: int)
    requires Inv(n) && n.status == Running && ValidEvent(n, UpdateServer(server, now)) && server.liveness == Dead
    requires n.leader.Some? && n.leader.value.Remote? && n.leader.value.server.address == server.address
    requires |n.hosts.Keys - {server.address}| >= n.cfg.Quorum() && n.state != LeaderDead
    ensures var r := Step(n, UpdateServer(server, now));
            && r.node.leader == Some(Local(now)) && r.node.state == LeadershipRequested(now)
            && Broadcast(RpcRequest.LeaderSwitchDead(n.cfg.whoami, now)) in r.out && Timer(false) in r.out
  {
    hide Step, Inv;
    var e := UpdateServer(server, now);
    assert TakesOver(n, e);
    MovesExactly(n, e);
    SendsExactlyWhatItOwes(n, e, Broadcast(RpcRequest.LeaderSwitchDead(n.cfg.whoami, now)));
    SendsExactlyWhatItOwes(n, e, Timer(false));
    assert Enters(n, e, LeadershipRequested(now));
  }

  /** Whoever begins a candidacy is registered with its own timestamp, asks all others for their ack, and has set a
      timeout. */
  lemma CandidacyIsMade(n: Node, e: Event)
    requires Inv(n) && n.status == Running && ValidEvent(n, e) && BeginsCandidacy(n, e)
    ensures e.UpdateServer? || e.CheckElectionTimeout?
    ensures var r := Step(n, e);
            && r.node.leader == Some(Local(e.now)) && Timer(false) in r.out
            && (|| Broadcast(RpcRequest.LeaderReq(n.cfg.whoami, e.now)) in r.out
                || Broadcast(RpcRequest.LeaderSwitchDead(n.cfg.whoami, e.now)) in r.out)
  {
    hide Step, Inv;
    MovesExactly(n, e);
    SendsExactlyWhatItOwes(n, e, Broadcast(RpcRequest.LeaderReq(n.cfg.whoami, e.now)));
    SendsExactlyWhatItOwes(n, e, Broadcast(RpcRequest.LeaderSwitchDead(n.cfg.whoami, e.now)));
    SendsExactlyWhatItOwes(n, e, Timer(false));
  }

  /** A message that makes a handler register another host also makes it ack that host: over its channel, as the
      answer to its request, or to all. */
  lemma RegistrationIsAcked(n: Node, e: Event)
    requires Inv(n) && n.status == Running && ValidEvent(n, e)
    ensures var r := Step(n, e);
            && (e.LeaderInfo? && n.leader.None? && e.addr in n.hosts ==>
                  Registered(r.node, e.addr, e.ts)
                  && Direct(Channel(e.addr), RpcRequest.LeaderReqAck(e.addr, e.ts)) in r.out)
            && (e.LeaderReq? && n.leader.None? && e.addr in n.hosts ==>
                  Registered(r.node, e.addr, e.ts) && Answer(true) in r.out)
            && ((e.LeaderReqAck? && n.leader.None?) ==>
                  Registered(r.node, e.addr, e.ts) && Broadcast(RpcRequest.LeaderReqAck(e.addr, e.ts)) in r.out)
            && (e.LeaderSwitchDead? ==>
                  Registered(r.node, e.voteHost, e.ts) && Broadcast(RpcRequest.LeaderReqAck(e.voteHost, e.ts)) in r.out)
            && (e.LeaderSwitchPriority? && Registered(r.node, e.voteHost, e.ts) && !Registered(n, e.voteHost, e.ts) ==>
                  Broadcast(RpcRequest.LeaderReqAck(e.voteHost, e.ts)) in r.out)
  {
    hide Step, Inv;
    MovesExactly(n, e);
    if e.LeaderInfo? || e.LeaderReq? || e.LeaderReqAck? {
      AboutOne(n, e, e.addr, e.ts);
      SendsExactlyWhatItOwes(n, e, Direct(Channel(e.addr), RpcRequest.LeaderReqAck(e.addr, e.ts)));
      SendsExactlyWhatItOwes(n, e, Broadcast(RpcRequest.LeaderReqAck(e.addr, e.ts)));
      SendsExactlyWhatItOwes(n, e, Answer(true));
    } else if e.LeaderSwitchDead? || e.LeaderSwitchPriority? {
      AboutOne(n, e, e.voteHost, e.ts);
      SendsExactlyWhatItOwes(n, e, Broadcast(RpcRequest.LeaderReqAck(e.voteHost, e.ts)));
    }
  }

  /** The ack that gives a candidate its quorum makes it lead and announce itself; nothing else makes it do so. */
  lemma QuorumIsAnnounced(n: Node, e: Event)
    requires Inv(n) && n.status == Running && ValidEvent(n, e) && n.leader.Some? && n.leader.value.Local?
    ensures var r := Step(n, e);
            && (Broadcast(RpcRequest.LeaderAck(n.cfg.whoami, n.leader.value.ts)) in r.out
                <==> (e.LeaderReqAck? || e.LeaderSwitchAck?) && e.addr == n.cfg.whoami && n.acks + 1 >= n.cfg.Quorum())
            && (Broadcast(RpcRequest.LeaderAck(n.cfg.whoami, n.leader.value.ts)) in r.out ==>
                  r.node.state == QuorumState.Leader && r.node.leader == n.leader)
  {
    hide Step, Inv;
    MovesExactly(n, e);
    SendsExactlyWhatItOwes(n, e, Broadcast(RpcRequest.LeaderAck(n.cfg.whoami, n.leader.value.ts)));
    if Announces(n, e) {
      assert Enters(n, e, QuorumState.Leader);
      NoAdoption(n, e);
      StaysOwn(n, e);
    }
  }

  lemma NoAdoption(n: Node, e: Event)
    requires n.leader.Some? && (e.LeaderReqAck? || e.LeaderSwitchAck?)
    ensures !exists a, t :: Adopts(n, e, a, t)
    ensures !BeginsCandidacy(n, e) && !LosesQuorum(n, e) && !Withdraws(n, e)
  { }

  lemma StaysOwn(n: Node, e: Event)
    requires Inv(n) && n.status == Running && (e.LeaderReqAck? || e.LeaderSwitchAck?)
    requires n.leader.Some? && n.leader.value.Local?
    ensures Step(n, e).node.leader == n.leader
  { }
}
