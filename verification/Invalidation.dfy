/** The cache resets that a handler orders when it loses its quorum. */
module Invalidation {
  import opened Types
  import opened QuorumStep
  import opened NodeInvariants
  import opened Outputs

  function ResetsIn(out: seq<Output>, name: string): nat {
    if out == [] then 0
    else ResetsIn(out[..|out| - 1], name) + if out[|out| - 1] == ResetCache(name) then 1 else 0
  }

  /** All resets of one cache over a run. */
  function ResetsSent(n: Node, es: seq<Event>, name: string): nat
    decreases |es|
  {
    if es == [] then 0
    else ResetsSent(n, es[..|es| - 1], name) + ResetsIn(Step(Exec(n, es[..|es| - 1]), es[|es| - 1]).out, name)
  }

  /** How often a run went from a quorum of connected hosts to less. */
  function Crossings(n: Node, es: seq<Event>): nat
    decreases |es|
  {
    if es == [] then 0
    else
      var quorum := n.cfg.Quorum();
      Crossings(n, es[..|es| - 1])
      + if |Exec(n, es[..|es| - 1]).hosts| >= quorum > |Exec(n, es).hosts| then 1 else 0
  }

  lemma {:induction false} NoResets(out: seq<Output>, name: string)
    requires forall i :: 0 <= i < |out| ==> !out[i].ResetCache?
    ensures ResetsIn(out, name) == 0
    decreases |out|
  {
    if out == [] {
    } else {
      NoResets(out[..|out| - 1], name);
    }
  }

  lemma {:induction false} OneResetPerCache(caches: seq<string>, name: string)
    requires Distinct(caches)
    ensures ResetsIn(Resets(caches), name) == if name in caches then 1 else 0
    decreases |caches|
  {
    if caches == [] {
    } else {
      var k := |caches| - 1;
      assert Resets(caches)[..k] == Resets(caches[..k]);
      assert caches == caches[..k] + [caches[k]];
      OneResetPerCache(caches[..k], name);
    }
  }

  lemma DeadResetsOnCrossing(n: Node, server: RpcServer, now: int, name: string)
    requires Inv(n) && server.address in n.cfg.peers && Distinct(n.cfg.caches) && name in n.cfg.caches
    ensures ResetsIn(OnDead(n, server, now).out, name)
         == if |n.hosts| >= n.cfg.Quorum() > |OnDead(n, server, now).node.hosts| then 1 else 0
  {
    RemoveHostSize(n.hosts, server.address, n.cfg.peers);
    OneResetPerCache(n.cfg.caches, name);
    if |n.hosts| < n.cfg.Quorum() || |n.hosts - {server.address}| >= n.cfg.Quorum() {
      NoResets(OnDead(n, server, now).out, name);
    }
  }

  lemma AliveResetsNothing(n: Node, server: RpcServer, now: int, name: string)
    requires Inv(n) && server.address in n.cfg.peers
    ensures ResetsIn(OnAlive(n, server, now).out, name) == 0
    ensures |OnAlive(n, server, now).node.hosts| >= |n.hosts|
  {
    AddHostSize(n.hosts, server, n.cfg.peers);
    NoResets(OnAlive(n, server, now).out, name);
  }

  lemma MessagesResetNothing(n: Node, e: Event, name: string)
    requires Inv(n) && n.status == Running && ValidEvent(n, e) && !e.UpdateServer?
    ensures ResetsIn(Step(n, e).out, name) == 0
  {
    hide Dispatch;
    forall i | 0 <= i < |Step(n, e).out| ensures !Step(n, e).out[i].ResetCache? {
      OutputsAreSound(n, e, Step(n, e).out[i]);
    }
    NoResets(Step(n, e).out, name);
  }

  lemma MessagesKeepHosts(n: Node, e: Event)
    requires !e.UpdateServer?
    ensures Step(n, e).node.hosts == n.hosts
  {
    hide OnUpdateServer;
  }

  lemma StepResetsOnCrossing(n: Node, e: Event, name: string)
    requires Inv(n) && ValidEvent(n, e) && Distinct(n.cfg.caches) && name in n.cfg.caches
    ensures ResetsIn(Step(n, e).out, name)
         == if |n.hosts| >= n.cfg.Quorum() > |Step(n, e).node.hosts| then 1 else 0
  {
    hide OnAlive, OnDead, ResetsIn;
    if n.status == Running {
      if !e.UpdateServer? {
        MessagesResetNothing(n, e, name);
        MessagesKeepHosts(n, e);
      } else if e.server.liveness == Dead {
        DeadResetsOnCrossing(n, e.server, e.now, name);
      } else {
        AliveResetsNothing(n, e.server, e.now, name);
      }
    } else {
      NoResets([], name);
    }
  }

  /** Over every run each cache gets exactly one reset per loss of quorum, no more and no less. */
  lemma {:induction false} ResetsEqualCrossings(cfg: Config, es: seq<Event>, name: string)
    requires ValidConfig(cfg) && ValidRun(Init(cfg), es) && Distinct(cfg.caches) && name in cfg.caches
    ensures ResetsSent(Init(cfg), es, name) == Crossings(Init(cfg), es)
    decreases |es|
  {
    if es == [] {
    } else {
      var before := es[..|es| - 1];
      ResetsEqualCrossings(cfg, before, name);
      RunKeepsInv(cfg, before);
      StepResetsOnCrossing(Exec(Init(cfg), before), es[|es| - 1], name);
    }
  }
}
