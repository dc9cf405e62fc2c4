/** How many connected hosts the published snapshot speaks of. */
module Snapshot {
  import opened Types
  import opened QuorumStep
  import opened NodeInvariants
  import opened Duties
  import opened Joining

  /** The leader is lost after another candidate was acked; the handler says nothing of it. */
  ghost predicate LosesDeadLeader(n: Node, e: Event) {
    && e.UpdateServer? && e.server.liveness == Dead && n.state == LeaderDead
    && Follows(n, e.server.address) && KeepsQuorum(n, e.server.address)
  }

  /** After such an event the watch channel is left as it was. */
  ghost predicate Silent(n: Node, e: Event) {
    || LosesDeadLeader(n, e)
    || (e.CheckElectionTimeout? && n.leader.None?)
    || e.HostShutdown? || Crashes(n, e)
  }

  /** The connected hosts that were lost unseen since the last publication. */
  ghost function Unseen(n: Node, es: seq<Event>): nat
    decreases |es|
  {
    if es == [] then 0
    else
      var p := Exec(n, es[..|es| - 1]);
      var e := es[|es| - 1];
      if p.status != Running then Unseen(n, es[..|es| - 1])
      else if !Silent(p, e) then 0
      else Unseen(n, es[..|es| - 1]) + if LosesDeadLeader(p, e) && e.server.address in p.hosts then 1 else 0
  }

  ghost predicate Counted(n: Node, unseen: nat) {
    && n.watch.connectedHosts == |n.hosts.Keys| + unseen
    && n.watch.health == HealthOf(n.watch.connectedHosts, n.cfg)
    && unseen <= 1
    && (unseen == 1 ==> n.state == LeaderDead && exists a :: Follows(n, a) && a !in n.hosts)
  }

  lemma MessageSilentIff(n: Node, e: Event)
    requires Inv(n) && n.status == Running && ValidEvent(n, e) && !e.UpdateServer?
    ensures Dispatch(n, e).publish <==> !Silent(n, e)
    ensures Silent(n, e) ==> var m := Dispatch(n, e).node;
              m.watch == n.watch && m.hosts == n.hosts && m.state == n.state && m.leader == n.leader && m.cfg == n.cfg
  {
    hide OnUpdateServer;
  }

  lemma ConnectionPublishes(n: Node, server: RpcServer, now: int)
    requires Inv(n) && server.address in n.cfg.peers && server.tx == Some(Channel(server.address))
    ensures OnAlive(n, server, now).publish
  {
    AliveOk(n, server, now);
  }

  lemma LossSilentIff(n: Node, server: RpcServer, now: int)
    requires Inv(n) && server.liveness == Dead && server.address in n.cfg.peers
    ensures var e := UpdateServer(server, now);
            var a := OnDead(n, server, now);
            && (a.publish <==> !LosesDeadLeader(n, e))
            && (LosesDeadLeader(n, e) ==>
                  && a.node.watch == n.watch && a.node.state == n.state
                  && a.node.leader == n.leader && a.node.cfg == n.cfg
                  && a.node.hosts.Keys == n.hosts.Keys - {server.address})
  {
    assert (n.hosts - {server.address}).Keys == n.hosts.Keys - {server.address};
  }

  lemma PublishedIsCounted(n: Node)
    requires Core(n)
    ensures Counted(Publish(n), 0)
  { }

  lemma SilentIsCounted(n: Node, e: Event, unseen: nat)
    requires Inv(n) && n.status == Running && ValidEvent(n, e) && Counted(n, unseen) && Silent(n, e)
    ensures Counted(Step(n, e).node, unseen + if LosesDeadLeader(n, e) && e.server.address in n.hosts then 1 else 0)
  {
    hide Dispatch, Inv;
    if e.UpdateServer? {
      LossIsCounted(n, e.server, e.now, unseen);
    } else {
      MessageSilentIff(n, e);
    }
  }

  lemma LossIsCounted(n: Node, server: RpcServer, now: int, unseen: nat)
    requires var e := UpdateServer(server, now);
             Inv(n) && n.status == Running && ValidEvent(n, e) && Counted(n, unseen) && LosesDeadLeader(n, e)
    ensures Counted(Step(n, UpdateServer(server, now)).node, unseen + if server.address in n.hosts then 1 else 0)
  {
    hide OnDead, Inv;
    LossSilentIff(n, server, now);
    var m := Step(n, UpdateServer(server, now)).node;
    if server.address in n.hosts {
      assert n.hosts.Keys == m.hosts.Keys + {server.address};
    } else {
      assert n.hosts.Keys == m.hosts.Keys;
    }
    assert Follows(m, server.address) && server.address !in m.hosts;
  }

  lemma LoudIsCounted(n: Node, e: Event)
    requires Inv(n) && n.status == Running && ValidEvent(n, e) && !Silent(n, e)
    ensures Counted(Step(n, e).node, 0)
  {
    hide Dispatch, Counted, OnAlive, OnDead;
    DispatchOk(n, e);
    StepPublishes(n, e);
    PublishedIsCounted(Dispatch(n, e).node);
  }

  lemma StepPublishes(n: Node, e: Event)
    requires Inv(n) && n.status == Running && ValidEvent(n, e) && !Silent(n, e)
    ensures Dispatch(n, e).publish
  {
    hide OnAlive, OnDead;
    if e.UpdateServer? {
      if e.server.liveness == Alive { ConnectionPublishes(n, e.server, e.now); }
      else { LossSilentIff(n, e.server, e.now); }
    } else {
      hide Dispatch;
      MessageSilentIff(n, e);
    }
  }

  lemma {:induction false} RunIsCounted(cfg: Config, es: seq<Event>)
    requires ValidConfig(cfg) && ValidRun(Init(cfg), es)
    ensures Counted(Exec(Init(cfg), es), Unseen(Init(cfg), es))
    decreases |es|
  {
    hide Step, Counted, Inv, Silent, LosesDeadLeader;
    if es == [] {
      InitInv(cfg);
      NobodyCounted(cfg);
    } else {
      var before := es[..|es| - 1];
      RunIsCounted(cfg, before);
      RunKeepsInv(cfg, before);
      var n := Exec(Init(cfg), before);
      var e := es[|es| - 1];
      if n.status != Running {
        StoppedStays(n, e);
      } else if Silent(n, e) {
        SilentIsCounted(n, e, Unseen(Init(cfg), before));
      } else {
        LoudIsCounted(n, e);
      }
    }
  }

  lemma NobodyCounted(cfg: Config)
    requires ValidConfig(cfg)
    ensures Counted(Init(cfg), 0)
  { }

  lemma StoppedStays(n: Node, e: Event)
    requires n.status != Running
    ensures Step(n, e).node == n
  { }

  /** After any run the snapshot speaks of exactly the connected hosts, unless the leader's loss went unseen since it
      was published, and then of one more; and its health is what that number of hosts gives. */
  lemma PublishedHostsAreCounted(cfg: Config, es: seq<Event>)
    requires ValidConfig(cfg) && ValidRun(Init(cfg), es)
    ensures var n := Exec(Init(cfg), es);
            && n.watch.connectedHosts == |n.hosts.Keys| + Unseen(Init(cfg), es)
            && Unseen(Init(cfg), es) <= 1
            && (n.watch.connectedHosts == |n.hosts.Keys| <==> Unseen(Init(cfg), es) == 0)
            && n.watch.health == HealthOf(n.watch.connectedHosts, cfg)
  {
    RunIsCounted(cfg, es);
    RunKeepsInv(cfg, es);
  }

  /** The connected hosts, and one more if the leader's loss went unseen. */
  ghost function Reckoned(cfg: Config, es: seq<Event>): nat {
    |Exec(Init(cfg), es).hosts.Keys| + Unseen(Init(cfg), es)
  }

  // ----- when that number can be trusted

  lemma {:induction false} NothingUnseenWithOnePeer(cfg: Config, es: seq<Event>)
    requires ValidConfig(cfg) && |cfg.peers| == 1 && ValidRun(Init(cfg), es)
    ensures Unseen(Init(cfg), es) == 0
    decreases |es|
  {
    hide Step;
    if es == [] {
    } else {
      var before := es[..|es| - 1];
      NothingUnseenWithOnePeer(cfg, before);
      RunKeepsInv(cfg, before);
      OnePeerIsAll(Exec(Init(cfg), before), es[|es| - 1]);
    }
  }

  lemma OnePeerIsAll(n: Node, e: Event)
    requires Inv(n) && |n.cfg.peers| == 1 && ValidEvent(n, e)
    ensures !LosesDeadLeader(n, e)
  {
    if e.UpdateServer? {
      SubsetSize(n.hosts.Keys - {e.server.address}, n.cfg.peers - {e.server.address});
    }
  }

  /** `ps` connect, the first of them is announced as candidate after a leader's death, and drops out itself. */
  function DeadCandidate(ps: seq<Addr>): seq<Event>
    requires ps != []
  {
    Joins(ps, seq(|ps|, _ => 0)) + [Event.LeaderSwitchDead(ps[0], 0)]
    + [UpdateServer(RpcServer(ps[0], Dead, Some(Channel(ps[0])), -1), 0)]
  }

  lemma DeadCandidateGoesUnseen(cfg: Config, ps: seq<Addr>)
    requires ValidConfig(cfg) && |ps| == cfg.Quorum() + 1 && Distinct(ps) && forall a :: a in ps ==> a in cfg.peers
    ensures ValidRun(Init(cfg), DeadCandidate(ps)) && Unseen(Init(cfg), DeadCandidate(ps)) == 1
  {
    hide Exec, ValidRun, Step, Init, Joins, Joined, Silent, LosesDeadLeader;
    var zeros := seq(|ps|, _ => 0);
    var es := Joins(ps, zeros);
    var e1 := Event.LeaderSwitchDead(ps[0], 0);
    var e2 := UpdateServer(RpcServer(ps[0], Dead, Some(Channel(ps[0])), -1), 0);
    JoiningHostStands(cfg, ps, zeros);
    RunKeepsInv(cfg, es);
    UnfoldRun(Init(cfg), es, e1);
    UnfoldRun(Init(cfg), es + [e1], e2);
    assert ps[0] in ps;
    var n := Exec(Init(cfg), es);
    CandidateAnnounced(cfg, ps, zeros, n);
    assert (es + [e1] + [e2])[..|es + [e1]|] == es + [e1] && (es + [e1])[..|es|] == es;
  }

  lemma CandidateAnnounced(cfg: Config, ps: seq<Addr>, nows: seq<int>, n: Node)
    requires cfg.Quorum() >= 1 && |ps| == |nows| == cfg.Quorum() + 1
    requires Joined(cfg, ps, nows, n) && Distinct(ps) && ps[0] in cfg.peers
    ensures var e1 := Event.LeaderSwitchDead(ps[0], 0);
            var e2 := UpdateServer(RpcServer(ps[0], Dead, Some(Channel(ps[0])), -1), 0);
            var m := Step(n, e1).node;
            && n.status == Running && !Silent(n, e1) && ValidEvent(n, e1)
            && m.status == Running && LosesDeadLeader(m, e2) && ps[0] in m.hosts && ValidEvent(m, e2) && Silent(m, e2)
  {
    var m := Step(n, Event.LeaderSwitchDead(ps[0], 0)).node;
    assert ps[0] in ps;
    assert m.hosts == n.hosts && ps[0] in n.hosts.Keys && |n.hosts.Keys| == |ps|;
    assert n.hosts.Keys == (n.hosts.Keys - {ps[0]}) + {ps[0]};
  }

  /** The published number of hosts is right after every run, if and only if there is just one other host. */
  lemma PublishedNumberIsRightIff(cfg: Config)
    requires ValidConfig(cfg)
    ensures (forall es :: ValidRun(Init(cfg), es) ==>
               Exec(Init(cfg), es).watch.connectedHosts == |Exec(Init(cfg), es).hosts.Keys|)
            <==> |cfg.peers| == 1
  {
    hide Exec, ValidRun, Unseen, Init;
    if |cfg.peers| == 1 {
      forall es | ValidRun(Init(cfg), es)
        ensures Exec(Init(cfg), es).watch.connectedHosts == |Exec(Init(cfg), es).hosts.Keys|
      {
        NothingUnseenWithOnePeer(cfg, es);
        PublishedHostsAreCounted(cfg, es);
      }
    } else {
      var ps := SomePeers(cfg.peers, cfg.Quorum() + 1);
      DeadCandidateGoesUnseen(cfg, ps);
      PublishedHostsAreCounted(cfg, DeadCandidate(ps));
      assert ValidRun(Init(cfg), DeadCandidate(ps));
    }
  }
}
