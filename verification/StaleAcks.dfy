/** A candidate counts acks for anything it has ever stood for. */
module StaleAcks {
  import opened Types
  import opened QuorumStep
  import opened QuorumHandler
  import opened NodeInvariants
  import opened Outputs
  import opened Votes
  import opened Joining

  /** It stands with the timestamp `now` and has counted `i` acks. */
  ghost predicate StandsWith(cfg: Config, now: int, i: nat, n: Node) {
    && n.status == Running && n.cfg == cfg && n.acks == i
    && n.leader == Some(Local(now)) && n.state == LeadershipRequested(now)
  }

  function Stale(cfg: Config, t: int, i: nat): seq<Event> {
    seq(i, _ => Event.LeaderReqAck(cfg.whoami, t))
  }

  lemma OneStale(cfg: Config, now: int, t: int, i: nat, n: Node)
    requires StandsWith(cfg, now, i, n)
    ensures var e := Event.LeaderReqAck(cfg.whoami, t);
            && ValidEvent(n, e) && Counts(n, e) && !Discards(n, e)
            && (i + 1 < cfg.Quorum() ==> StandsWith(cfg, now, i + 1, Step(n, e).node))
            && (i + 1 >= cfg.Quorum() ==> Broadcast(RpcRequest.LeaderAck(cfg.whoami, now)) in Step(n, e).out)
  {
    var e := Event.LeaderReqAck(cfg.whoami, t);
    var conflict := ConflictOutput(n, cfg.whoami, t);
    if i + 1 >= cfg.Quorum() {
      assert Step(n, e).out == conflict + [Broadcast(RpcRequest.LeaderAck(cfg.whoami, now))];
    }
  }

  lemma {:induction false} CountsStale(cfg: Config, before: seq<Event>, now: int, t: int, i: nat)
    requires ValidRun(Init(cfg), before) && StandsWith(cfg, now, 0, Exec(Init(cfg), before))
    requires i < cfg.Quorum() && t != now && AcksNaming(Init(cfg), before, now) == 0
    ensures ValidRun(Init(cfg), before + Stale(cfg, t, i))
    ensures StandsWith(cfg, now, i, Exec(Init(cfg), before + Stale(cfg, t, i)))
    ensures AcksNaming(Init(cfg), before + Stale(cfg, t, i), now) == 0
  {
    hide Exec, ValidRun, Step, Init, StandsWith, Counts, Discards, ValidEvent, AcksNaming;
    if i == 0 {
      assert before + Stale(cfg, t, 0) == before;
    } else {
      CountsStale(cfg, before, now, t, i - 1);
      MoreStale(cfg, before, now, t, i - 1);
    }
  }

  lemma MoreStale(cfg: Config, before: seq<Event>, now: int, t: int, i: nat)
    requires ValidRun(Init(cfg), before + Stale(cfg, t, i)) && t != now
    requires StandsWith(cfg, now, i, Exec(Init(cfg), before + Stale(cfg, t, i)))
    requires AcksNaming(Init(cfg), before + Stale(cfg, t, i), now) == 0
    ensures var e := Event.LeaderReqAck(cfg.whoami, t);
            before + Stale(cfg, t, i + 1) == before + Stale(cfg, t, i) + [e]
    ensures ValidRun(Init(cfg), before + Stale(cfg, t, i + 1))
    ensures AcksNaming(Init(cfg), before + Stale(cfg, t, i + 1), now) == 0
    ensures i + 1 < cfg.Quorum() ==> StandsWith(cfg, now, i + 1, Exec(Init(cfg), before + Stale(cfg, t, i + 1)))
  {
    hide Exec, ValidRun, Step, Init, StandsWith, Counts, Discards, ValidEvent;
    var e := Event.LeaderReqAck(cfg.whoami, t);
    var es := before + Stale(cfg, t, i);
    assert Stale(cfg, t, i + 1) == Stale(cfg, t, i) + [e];
    assert before + Stale(cfg, t, i + 1) == es + [e];
    OneStale(cfg, now, t, i, Exec(Init(cfg), es));
    UnfoldRun(Init(cfg), es, e);
    assert (es + [e])[..|es|] == es;
  }

  /** In every cluster a handler that stands can be made to announce itself though not one ack has named its
      candidacy: as many acks for another timestamp do as well. */
  lemma StaleAcksAnnounce(cfg: Config, ps: seq<Addr>, nows: seq<int>, t: int) returns (es: seq<Event>, e: Event)
    requires ValidConfig(cfg) && |ps| == |nows| == cfg.Quorum()
    requires Distinct(ps) && (forall a :: a in ps ==> a in cfg.peers)
    requires t != nows[|nows| - 1]
    ensures ValidRun(Init(cfg), es + [e])
    ensures Broadcast(RpcRequest.LeaderAck(cfg.whoami, nows[|nows| - 1])) in Step(Exec(Init(cfg), es), e).out
    ensures AcksNaming(Init(cfg), es + [e], nows[|nows| - 1]) == 0
  {
    hide Exec, ValidRun, Step, Init, Joins, AcksNaming, AcksSinceDiscard;
    var now := nows[|nows| - 1];
    var before := Joins(ps, nows);
    JoiningHostStands(cfg, ps, nows);
    JoinedStands(cfg, ps, nows, Exec(Init(cfg), before));
    CounterIsExact(cfg, before);
    NamingAcksAreAll(Init(cfg), before, now);
    var i := cfg.Quorum() - 1;
    CountsStale(cfg, before, now, t, i);
    MoreStale(cfg, before, now, t, i);
    es, e := before + Stale(cfg, t, i), Event.LeaderReqAck(cfg.whoami, t);
    OneStale(cfg, now, t, i, Exec(Init(cfg), es));
  }

  lemma JoinedStands(cfg: Config, ps: seq<Addr>, nows: seq<int>, n: Node)
    requires |ps| == |nows| == cfg.Quorum() >= 1 && Joined(cfg, ps, nows, n)
    ensures StandsWith(cfg, nows[|nows| - 1], 0, n)
  { }
}
