/** Between failures and announcements, a handler only ever moves to earlier candidates. */
module Priority {
  import opened Types
  import opened QuorumStep
  import opened NodeInvariants

  ghost predicate Settled(n: Node) {
    n.state.Leader? || n.state.LeadershipRequested? || n.state.Follower? || n.state.LeaderTxAwait?
  }

  /** Neither a failed connection nor a message that replaces the leader unconditionally. */
  ghost predicate Ordinary(e: Event) {
    && !(e.UpdateServer? && e.server.liveness == Dead)
    && !e.LeaderAck? && !e.LeaderSwitch? && !e.LeaderSwitchDead?
  }

  /** `m` has the leader of `n` or an earlier candidate. */
  ghost predicate NoLater(n: Node, m: Node) {
    && n.leader.Some? && m.leader.Some?
    && LeaderTs(m) <= LeaderTs(n)
    && (LeaderAddr(m) != LeaderAddr(n) ==> LeaderTs(m) < LeaderTs(n))
  }

  lemma AlivePrefersEarlier(n: Node, server: RpcServer, now: int)
    requires Inv(n) && Settled(n)
    ensures var m := OnAlive(n, server, now).node; Settled(m) && NoLater(n, m)
  {
    var n1 := TakeAwaited(n, server).node;
    assert Settled(n1) && NoLater(n, n1) && !n1.state.Retry?;
  }

  lemma PriorityPrefersEarlier(n: Node, voteHost: Addr, ts: int)
    requires Inv(n) && Settled(n)
    ensures var m := OnLeaderSwitchPriority(n, voteHost, ts).node; Settled(m) && NoLater(n, m)
  { }

  lemma TimeoutPrefersEarlier(n: Node, now: int)
    requires Inv(n) && Settled(n)
    ensures var m := OnCheckElectionTimeout(n, now).node; Settled(m) && NoLater(n, m)
  { }

  lemma MessagePrefersEarlier(n: Node, e: Event)
    requires Inv(n) && Settled(n)
    ensures e.LeaderInfo? ==> var m := OnLeaderInfo(n, e.addr, e.ts, e.hasQuorum).node; Settled(m) && NoLater(n, m)
    ensures e.LeaderReqAck? ==> var m := OnLeaderReqAck(n, e.addr, e.ts).node; Settled(m) && NoLater(n, m)
  { }

  lemma StepPrefersEarlier(n: Node, e: Event)
    requires Inv(n) && Settled(n) && n.status == Running && ValidEvent(n, e) && Ordinary(e)
    ensures Settled(Step(n, e).node) && NoLater(n, Step(n, e).node)
  {
    hide OnAlive, OnLeaderInfo, OnLeaderReqAck, OnLeaderSwitchPriority, OnCheckElectionTimeout;
    match e
    case UpdateServer(server, now) => AliveOk(n, server, now); AlivePrefersEarlier(n, server, now);
    case LeaderSwitchPriority(voteHost, ts) => PriorityPrefersEarlier(n, voteHost, ts);
    case CheckElectionTimeout(now) => TimeoutPrefersEarlier(n, now);
    case _ => MessagePrefersEarlier(n, e);
  }

  /** From any reachable settled state, over any sequence of ordinary events, the handler stays
      settled, its leader's timestamp never grows, and a new leader has a strictly smaller one. */
  lemma {:induction false} RunPrefersEarlier(cfg: Config, past: seq<Event>, es: seq<Event>)
    requires ValidConfig(cfg) && ValidRun(Init(cfg), past)
    requires Settled(Exec(Init(cfg), past)) && ValidRun(Exec(Init(cfg), past), es)
    requires forall i :: 0 <= i < |es| ==> Ordinary(es[i])
    ensures Settled(Exec(Exec(Init(cfg), past), es))
    ensures NoLater(Exec(Init(cfg), past), Exec(Exec(Init(cfg), past), es))
    ensures Inv(Exec(Exec(Init(cfg), past), es))
    decreases |es|
  {
    RunKeepsInv(cfg, past);
    if es == [] {
    } else {
      var before := es[..|es| - 1];
      RunPrefersEarlier(cfg, past, before);
      var n := Exec(Exec(Init(cfg), past), before);
      if n.status == Running {
        StepPrefersEarlier(n, es[|es| - 1]);
        StepKeepsInv(n, es[|es| - 1]);
      }
    }
  }
}
