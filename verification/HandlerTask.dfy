/** The quorum handler's task from its start: what is proved of the step function holds of the object. */
module HandlerTask {
  import opened Types
  import opened QuorumStep
  import opened QuorumHandler
  import opened NodeInvariants
  import opened Outputs
  import opened Votes
  import opened Invalidation
  import opened Duties
  import opened Snapshot

  lemma {:induction false} ResetsConcat(a: seq<Output>, b: seq<Output>, name: string)
    ensures ResetsIn(a + b, name) == ResetsIn(a, name) + ResetsIn(b, name)
    decreases |b|
  {
    if b == [] {
      assert a + b == a;
    } else {
      assert (a + b)[..|a + b| - 1] == a + b[..|b| - 1];
      ResetsConcat(a, b[..|b| - 1], name);
    }
  }

  lemma {:induction false} ResetsInTrace(n: Node, es: seq<Event>, name: string)
    ensures ResetsIn(Trace(n, es), name) == ResetsSent(n, es, name)
    decreases |es|
  {
    hide Step, ResetsIn;
    if es == [] {
      NoResets([], name);
    } else {
      var before := es[..|es| - 1];
      ResetsInTrace(n, before, name);
      ResetsConcat(Trace(n, before), Step(Exec(n, before), es[|es| - 1]).out, name);
    }
  }

  /** Everything that a handler has sent is backed by its registration at the end of the step that sent it. */
  ghost predicate SentSoundly(n: Node, es: seq<Event>, sent: seq<Output>) {
    forall o :: o in sent ==> exists i :: 0 <= i < |es| && SoundAt(n, es, i, o)
  }

  ghost predicate SoundAt(n: Node, es: seq<Event>, i: nat, o: Output)
    requires i < |es|
  {
    var before := Exec(n, es[..i]);
    o in Step(before, es[i]).out && Sound(before, es[i], Step(before, es[i]).node, o)
  }

  lemma {:induction false} TraceIsSound(cfg: Config, es: seq<Event>)
    requires ValidConfig(cfg) && ValidRun(Init(cfg), es)
    ensures SentSoundly(Init(cfg), es, Trace(Init(cfg), es))
    decreases |es|
  {
    hide Step, Sound, Init, Inv;
    if es == [] {
    } else {
      var k := |es| - 1;
      var before := es[..k];
      TraceIsSound(cfg, before);
      RunKeepsInv(cfg, before);
      forall o | o in Trace(Init(cfg), es) ensures exists i :: 0 <= i < |es| && SoundAt(Init(cfg), es, i, o) {
        if o in Trace(Init(cfg), before) {
          var i :| 0 <= i < |before| && SoundAt(Init(cfg), before, i, o);
          assert before[..i] == es[..i] && before[i] == es[i];
          assert SoundAt(Init(cfg), es, i, o);
        } else {
          SilentUnlessRunning(Exec(Init(cfg), before), es[k], o);
          OutputsAreSound(Exec(Init(cfg), before), es[k], o);
          assert SoundAt(Init(cfg), es, k, o);
        }
      }
    }
  }

  lemma SilentUnlessRunning(n: Node, e: Event, o: Output)
    requires o in Step(n, e).out
    ensures n.status == Running
  {
    hide Dispatch;
  }

  /** `o` was owed at the i-th event, while the handler was running. */
  ghost predicate OwedAt(n: Node, es: seq<Event>, i: nat, o: Output)
    requires i < |es|
  {
    Exec(n, es[..i]).status == Running && Owed(Exec(n, es[..i]), es[i], o)
  }

  ghost predicate OwedOnTheWay(n: Node, es: seq<Event>, o: Output) {
    exists i :: 0 <= i < |es| && OwedAt(n, es, i, o)
  }

  lemma OwedLonger(n: Node, es: seq<Event>, o: Output)
    requires es != []
    ensures OwedOnTheWay(n, es, o) <==> OwedOnTheWay(n, es[..|es| - 1], o) || OwedAt(n, es, |es| - 1, o)
  {
    hide Owed, Exec;
    var before := es[..|es| - 1];
    forall i | 0 <= i < |before| ensures OwedAt(n, before, i, o) <==> OwedAt(n, es, i, o) {
      assert before[..i] == es[..i] && before[i] == es[i];
    }
    if OwedOnTheWay(n, before, o) {
      var i :| 0 <= i < |before| && OwedAt(n, before, i, o);
      assert OwedAt(n, es, i, o);
    }
  }

  lemma NothingOwed(n: Node, o: Output)
    ensures !OwedOnTheWay(n, [], o)
  { }

  lemma {:induction false} TraceIsOwed(cfg: Config, es: seq<Event>, o: Output)
    requires ValidConfig(cfg) && ValidRun(Init(cfg), es)
    ensures o in Trace(Init(cfg), es) <==> OwedOnTheWay(Init(cfg), es, o)
    decreases |es|
  {
    hide Step, Owed, Init, Inv, OwedOnTheWay, ValidEvent;
    if es == [] {
      NothingOwed(Init(cfg), o);
    } else {
      var k := |es| - 1;
      TraceIsOwed(cfg, es[..k], o);
      RunKeepsInv(cfg, es[..k]);
      OwedLonger(Init(cfg), es, o);
      var n := Exec(Init(cfg), es[..k]);
      if n.status == Running {
        SendsExactlyWhatItOwes(n, es[k], o);
      } else if o in Step(n, es[k]).out {
        SilentUnlessRunning(n, es[k], o);
      }
    }
  }

  /** `quorum_handler`: however its queue is filled, the object it leaves behind is consistent, has panicked
      exactly on a switch ack without a leader, has counted the acks since the last discard, has published
      a snapshot that can be trusted, whose number of hosts is exact but for an unseen loss, and has sent exactly
      what it owed, nothing that it does not back, and each cache as many resets as it lost the quorum. */
  method RunHandler(whoami: Addr, ghost peers: set<Addr>, clientsCount: nat, caches: seq<string>, rx: seq<Event>)
      returns (h: Handler)
    requires clientsCount == |peers|
    requires var cfg := Config(whoami, peers, caches); ValidConfig(cfg) && ValidRun(Init(cfg), rx)
    ensures Inv(h.Abs()) && h.Abs() == Exec(Init(Config(whoami, peers, caches)), rx)
    ensures h.status == Panicked <==> SawOrphanAck(Init(Config(whoami, peers, caches)), rx)
    ensures h.ackCount == AcksSinceDiscard(Init(Config(whoami, peers, caches)), rx)
    ensures h.health == HealthOf(|h.hosts|, h.Abs().cfg)
    ensures h.watch.state == h.state && (h.watch.IsQuorumGood() <==> |h.hosts| >= h.quorum)
    ensures h.watch.state == Follower ==> FollowsThrough(h.leader, h.watch.txLeader)
    ensures h.watch.connectedHosts == |h.hosts.Keys| + Unseen(Init(Config(whoami, peers, caches)), rx)
    ensures h.watch.health == HealthOf(h.watch.connectedHosts, h.Abs().cfg)
    ensures forall o :: o in h.sent <==> OwedOnTheWay(Init(Config(whoami, peers, caches)), rx, o)
    ensures SentSoundly(Init(Config(whoami, peers, caches)), rx, h.sent)
    ensures Distinct(caches) ==> forall name :: name in caches ==>
              ResetsIn(h.sent, name) == Crossings(Init(Config(whoami, peers, caches)), rx)
  {
    ghost var cfg := Config(whoami, peers, caches);
    hide Init, Exec, ValidRun, Trace, ResetsIn, Crossings, SentSoundly, AcksSinceDiscard, SawOrphanAck,
      OwedOnTheWay, Unseen;
    h := new Handler(whoami, peers, clientsCount, caches);
    InitRuns(cfg);
    h.Run(rx);
    RunKeepsInv(cfg, rx);
    PanicsExactlyOnOrphanAck(cfg, rx);
    CounterIsExact(cfg, rx);
    SnapshotCanBeTrusted(cfg, rx);
    PublishedHostsAreCounted(cfg, rx);
    TraceIsSound(cfg, rx);
    forall o ensures o in h.sent <==> OwedOnTheWay(Init(cfg), rx, o) {
      TraceIsOwed(cfg, rx, o);
    }
    forall name | Distinct(caches) && name in caches ensures ResetsIn(h.sent, name) == Crossings(Init(cfg), rx) {
      ResetsEqualCrossings(cfg, rx, name);
      ResetsInTrace(Init(cfg), rx, name);
    }
  }

  lemma InitRuns(cfg: Config)
    ensures Init(cfg).status == Running
  { }
}
