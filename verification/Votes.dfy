/** The acks that a candidate counts before it announces itself. */
module Votes {
  import opened Types
  import opened QuorumStep
  import opened NodeInvariants
  import opened Outputs

  /** A candidacy begins or ends in a way that discards the acks counted so far. */
  ghost predicate Discards(n: Node, e: Event) {
    n.status == Running &&
    match e
    case LeaderAck(_, _) => true
    case LeaderSwitch(voteHost, _) => voteHost == n.cfg.whoami
    case UpdateServer(server, _) =>
      if server.liveness == Alive then
        n.leader.None? && n.health != Good && |n.hosts[server.address := server]| >= n.cfg.Quorum()
      else
        if |n.hosts - {server.address}| >= n.cfg.Quorum() then
          n.leader.Some? && n.leader.value.Remote? && n.leader.value.server.address == server.address
        else n.health != Bad
    case _ => false
  }

  /** The self-addressed acks that arrived after the last discarding event of a run. */
  ghost function AcksSinceDiscard(n: Node, es: seq<Event>): nat
    decreases |es|
  {
    if es == [] then 0
    else
      var p := Exec(n, es[..|es| - 1]);
      var e := es[|es| - 1];
      if Discards(p, e) then 0
      else AcksSinceDiscard(n, es[..|es| - 1]) + if Counts(p, e) then 1 else 0
  }

  lemma AliveCounts(n: Node, server: RpcServer, now: int)
    requires Inv(n) && n.status == Running && server.liveness == Alive
    requires server.tx == Some(Channel(server.address))
    ensures OnAlive(n, server, now).node.acks
         == if Discards(n, UpdateServer(server, now)) then 0 else n.acks
  {
    var n1 := TakeAwaited(n, server).node;
    assert n1.leader.None? <==> n.leader.None?;
    var n2 := TakeRetried(n1, server).node;
    assert n2.leader.None? <==> n.leader.None?;
  }

  lemma DeadCounts(n: Node, server: RpcServer, now: int)
    requires n.status == Running && server.liveness == Dead
    ensures OnDead(n, server, now).node.acks
         == if Discards(n, UpdateServer(server, now)) then 0 else n.acks
  { }

  lemma MessageCounts(n: Node, e: Event)
    requires n.status == Running && !e.UpdateServer?
    ensures Dispatch(n, e).node.acks
         == if Discards(n, e) then 0 else n.acks + if Counts(n, e) then 1 else 0
  {
    hide OnUpdateServer;
  }

  lemma StepCounts(n: Node, e: Event)
    requires Inv(n) && n.status == Running && ValidEvent(n, e)
    ensures Step(n, e).node.acks
         == if Discards(n, e) then 0 else n.acks + if Counts(n, e) then 1 else 0
  {
    if !e.UpdateServer? {
      hide Dispatch;
      MessageCounts(n, e);
    } else {
      hide OnAlive, OnDead;
      if e.server.liveness == Alive {
        AliveOk(n, e.server, e.now);
        AliveCounts(n, e.server, e.now);
      } else {
        DeadCounts(n, e.server, e.now);
      }
    }
  }

  /** The handler's counter is that number in every reachable state. */
  lemma {:induction false} CounterIsExact(cfg: Config, es: seq<Event>)
    requires ValidConfig(cfg) && ValidRun(Init(cfg), es)
    ensures Exec(Init(cfg), es).acks == AcksSinceDiscard(Init(cfg), es)
    decreases |es|
  {
    if es == [] {
    } else {
      var before := es[..|es| - 1];
      CounterIsExact(cfg, before);
      RunKeepsInv(cfg, before);
      if Exec(Init(cfg), before).status == Running {
        StepCounts(Exec(Init(cfg), before), es[|es| - 1]);
      }
    }
  }

  /** A handler announces only itself, with the timestamp of its own registration, as the leader it
      has just become, and only after a quorum of acks. */
  lemma AnnouncedOnlyWithQuorum(cfg: Config, es: seq<Event>, e: Event, addr: Addr, ts: int)
    requires ValidConfig(cfg) && ValidRun(Init(cfg), es + [e])
    requires Broadcast(RpcRequest.LeaderAck(addr, ts)) in Step(Exec(Init(cfg), es), e).out
    ensures addr == cfg.whoami && Counts(Exec(Init(cfg), es), e)
    ensures AcksSinceDiscard(Init(cfg), es + [e]) >= cfg.Quorum()
    ensures var m := Exec(Init(cfg), es + [e]); m.leader == Some(Local(ts)) && m.state == QuorumState.Leader
  {
    UnfoldRun(Init(cfg), es, e);
    RunKeepsInv(cfg, es);
    CounterIsExact(cfg, es + [e]);
    var n := Exec(Init(cfg), es);
    if n.status == Running {
      OutputsAreSound(n, e, Broadcast(RpcRequest.LeaderAck(addr, ts)));
      StepCounts(n, e);
    }
  }

  // ----- acks for this very candidacy

  ghost predicate NamesPair(e: Event, ts: int) {
    e.LeaderReqAck? && e.ts == ts
  }

  /** Those acks since the last discarding event that name the timestamp `ts`. */
  ghost function AcksNaming(n: Node, es: seq<Event>, ts: int): nat
    decreases |es|
  {
    if es == [] then 0
    else
      var p := Exec(n, es[..|es| - 1]);
      var e := es[|es| - 1];
      if Discards(p, e) then 0
      else AcksNaming(n, es[..|es| - 1], ts) + if Counts(p, e) && NamesPair(e, ts) then 1 else 0
  }

  /** Since the last discarding event nothing has been counted that does not name `ts`. */
  ghost predicate NothingElseCounted(n: Node, es: seq<Event>, ts: int)
    decreases |es|
  {
    es == [] ||
    var p := Exec(n, es[..|es| - 1]);
    var e := es[|es| - 1];
    Discards(p, e) || (NothingElseCounted(n, es[..|es| - 1], ts) && (Counts(p, e) ==> NamesPair(e, ts)))
  }

  lemma {:induction false} NamingAcksAreAll(n: Node, es: seq<Event>, ts: int)
    ensures AcksNaming(n, es, ts) <= AcksSinceDiscard(n, es)
    ensures AcksNaming(n, es, ts) == AcksSinceDiscard(n, es) <==> NothingElseCounted(n, es, ts)
    decreases |es|
  {
    hide Exec, Discards, Counts;
    if es == [] {
    } else {
      NamingAcksAreAll(n, es[..|es| - 1], ts);
    }
  }

  /** The ack that completes a quorum makes the handler announce a candidacy that a quorum of acks has named, if
      and only if no other ack has been counted on the way. */
  lemma AnnouncedCandidacyIsAckedIff(cfg: Config, es: seq<Event>, e: Event, addr: Addr, ts: int)
    requires ValidConfig(cfg) && ValidRun(Init(cfg), es + [e])
    requires Broadcast(RpcRequest.LeaderAck(addr, ts)) in Step(Exec(Init(cfg), es), e).out
    requires Exec(Init(cfg), es).acks + 1 == cfg.Quorum()
    ensures AcksNaming(Init(cfg), es + [e], ts) >= cfg.Quorum() <==> NothingElseCounted(Init(cfg), es + [e], ts)
  {
    hide Exec, ValidRun, AcksNaming, AcksSinceDiscard, NothingElseCounted, Step;
    AnnouncedOnlyWithQuorum(cfg, es, e, addr, ts);
    UnfoldRun(Init(cfg), es, e);
    RunKeepsInv(cfg, es);
    StepStarts(Exec(Init(cfg), es), e, Broadcast(RpcRequest.LeaderAck(addr, ts)));
    StepCounts(Exec(Init(cfg), es), e);
    CounterIsExact(cfg, es + [e]);
    NamingAcksAreAll(Init(cfg), es + [e], ts);
  }

  lemma StepStarts(n: Node, e: Event, o: Output)
    requires o in Step(n, e).out
    ensures n.status == Running
  {
    hide Dispatch;
  }
}
