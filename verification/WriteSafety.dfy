/** What the write path and the lookup may rely on because the quorum handler publishes the snapshot. */
module WriteSafety {
  import opened Types
  import opened QuorumStep
  import opened NodeInvariants
  import opened Joining
  import opened Snapshot
  import opened WritePath

  /** The host's current snapshot is what its quorum handler has published last. */
  ghost predicate Published(h: Host, cfg: Config, es: seq<Event>)
    reads h
  {
    && ValidConfig(cfg) && ValidRun(Init(cfg), es)
    && h.haMode && h.snapshot == Some(Exec(Init(cfg), es).watch)
  }

  /** After any run of the handler an insert does not crash, and a follower forwards it to the leader
      that its handler has registered. */
  method InsertAfterAnyRun(h: Host, ghost cfg: Config, ghost es: seq<Event>, cacheName: string, entry: string,
                           value: Bytes, level: AckLevel, tx: RespTx, rx: nat -> Recv<bool>, reply: Recv<bool>)
      returns (r: Outcome)
    requires Published(h, cfg, es)
    modifies h
    ensures r != Crashed
    ensures var n := Exec(Init(cfg), es);
            n.state == Follower && n.health != Bad ==>
              n.leader.Some? && n.leader.value.Remote?
              && h.forwarded == old(h.forwarded)
                   + [(Channel(n.leader.value.server.address), RpcRequest.Insert(cacheName, entry, value, level, tx))]
  {
    hide Exec, ValidRun;
    SnapshotCanBeTrusted(cfg, es);
    RunKeepsInv(cfg, es);
    r := h.CacheInsert(cacheName, entry, value, level, tx, rx, reply);
  }

  /** A remove crashes exactly if the handler has a quorum but is undecided. */
  method RemoveAfterAnyRun(h: Host, ghost cfg: Config, ghost es: seq<Event>, cacheName: string, entry: string,
                           level: AckLevel, tx: RespTx, rx: nat -> Recv<bool>, reply: Recv<bool>)
      returns (r: Outcome)
    requires Published(h, cfg, es)
    modifies h
    ensures var n := Exec(Init(cfg), es);
            r == Crashed <==> |n.hosts| >= cfg.Quorum() && (n.state == Undefined || n.state == Retry)
  {
    hide Exec, ValidRun;
    SnapshotCanBeTrusted(cfg, es);
    r := h.CacheRemove(cacheName, entry, level, tx, rx, reply);
  }

  /** That does happen in every cluster: a request that comes before the last connection for the quorum is
      accepted, or with a timeout forgotten, and the handler stays undecided when it gets its quorum. */
  lemma UndecidedWithQuorum(cfg: Config) returns (es: seq<Event>)
    requires ValidConfig(cfg)
    ensures ValidRun(Init(cfg), es)
    ensures Exec(Init(cfg), es).watch.IsQuorumGood() && Exec(Init(cfg), es).watch.state == Undefined
  {
    if cfg.Quorum() == 1 {
      var x :| x in cfg.peers;
      es := UndecidedAfterTimeout(cfg, x);
    } else {
      var ps := SomePeers(cfg.peers, cfg.Quorum());
      es := UndecidedAfterRequest(cfg, ps);
    }
  }

  lemma UndecidedAfterRequest(cfg: Config, ps: seq<Addr>) returns (es: seq<Event>)
    requires ValidConfig(cfg) && |ps| == cfg.Quorum() >= 2 && Distinct(ps) && forall a :: a in ps ==> a in cfg.peers
    ensures ValidRun(Init(cfg), es)
    ensures Exec(Init(cfg), es).watch.IsQuorumGood() && Exec(Init(cfg), es).watch.state == Undefined
  {
    hide Exec, ValidRun, Init, Joins, Joined, Step;
    var k := |ps| - 1;
    var qs, nows := ps[..k], seq(k, _ => 0);
    assert forall a :: a in qs ==> a in ps;
    JoiningHostStands(cfg, qs, nows);
    var es0 := Joins(qs, nows);
    var e1, e2 := Event.LeaderReq(ps[0], 0), Join(ps[k], 0);
    UnfoldRun(Init(cfg), es0, e1);
    UnfoldRun(Init(cfg), es0 + [e1], e2);
    es := es0 + [e1] + [e2];
    assert ps[0] in qs by { assert qs[0] == ps[0]; }
    assert ps[k] !in qs;
    assert ps[k] in ps;
    RequestThenQuorum(cfg, qs, nows, ps[0], ps[k], Exec(Init(cfg), es0));
  }

  lemma RequestThenQuorum(cfg: Config, ps: seq<Addr>, nows: seq<int>, x: Addr, last: Addr, n: Node)
    requires ValidConfig(cfg) && |ps| == |nows| == cfg.Quorum() - 1 && Joined(cfg, ps, nows, n)
    requires x in ps && last in cfg.peers && last !in ps
    ensures ValidEvent(n, Event.LeaderReq(x, 0))
    ensures var n1 := Step(n, Event.LeaderReq(x, 0)).node;
            && ValidEvent(n1, Join(last, 0))
            && var n2 := Step(n1, Join(last, 0)).node; n2.watch.IsQuorumGood() && n2.watch.state == Undefined
  {
    hide OnAlive;
    var n1 := Step(n, Event.LeaderReq(x, 0)).node;
    assert n1.leader.Some? && n1.state == Undefined && n1.hosts == n.hosts && n1.status == Running && n1.cfg == cfg;
    var server := Join(last, 0).server;
    AliveOnlyCounts(n1, server, 0);
    MoreHosts(ps, last, n.hosts);
  }

  lemma UndecidedAfterTimeout(cfg: Config, x: Addr) returns (es: seq<Event>)
    requires ValidConfig(cfg) && cfg.Quorum() == 1 && x in cfg.peers
    ensures ValidRun(Init(cfg), es)
    ensures Exec(Init(cfg), es).watch.IsQuorumGood() && Exec(Init(cfg), es).watch.state == Undefined
  {
    var e0, e1 := Event.LeaderReq(x, 0), CheckElectionTimeout(0);
    var e2 := UpdateServer(RpcServer(x, Alive, Some(Channel(x)), -1), 0);
    UnfoldRun(Init(cfg), [], e0);
    UnfoldRun(Init(cfg), [e0], e1);
    UnfoldRun(Init(cfg), [e0, e1], e2);
    assert [] + [e0] == [e0] && [e0] + [e1] == [e0, e1] && [e0, e1] + [e2] == [e0, e1, e2];
    es := [e0, e1, e2];
    RunKeepsInv(cfg, [e0, e1]);
    TimeoutLeavesUndecided(cfg, x);
    var n := Exec(Init(cfg), [e0, e1]);
    SnapshotCanBeTrusted(cfg, es);
    assert map[][x := e2.server].Keys == {x};
    assert |map[][x := e2.server]| == 1;
  }

  lemma TimeoutLeavesUndecided(cfg: Config, x: Addr)
    ensures var n := Step(Step(Init(cfg), Event.LeaderReq(x, 0)).node, CheckElectionTimeout(0)).node;
            n.state == Undefined && n.leader == RemoteAt(x, None, 0) && n.hosts == map[] && n.health == Bad
            && n.status == Running && n.cfg == cfg
  { }

  /** After any run of the handler that ends with a good quorum, a lookup is not rejected and never
      decrements zero. If it asks the others, it finds nothing exactly if none of as many answers as hosts
      are connected, or one more if the leader's loss went unseen, has a value, and else exactly the first
      value. */
  method LookupAfterAnyRun(h: Host, ghost cfg: Config, ghost es: seq<Event>, cacheName: string, entry: string,
                           local: Recv<Option<Bytes>>, tx: RespTx, rx: nat -> Recv<Option<Bytes>>)
      returns (r: Lookup)
    requires Published(h, cfg, es) && Exec(Init(cfg), es).health != Bad && cacheName in h.caches
    modifies h
    ensures r != Underflow && r != Rejected
    ensures var asked := Reckoned(cfg, es);
            local == Got(None) ==>
              && asked >= 1
              && (r == NotFound <==> NonesBefore(rx, asked))
              && forall v :: r == Found(v) <==>
                   exists k: nat :: k < asked && NonesBefore(rx, k) && rx(k) == Got(Some(v))
  {
    hide Exec, ValidRun;
    SnapshotCanBeTrusted(cfg, es);
    RunKeepsInv(cfg, es);
    PublishedHostsAreCounted(cfg, es);
    r := h.CacheGetValue(cacheName, entry, true, local, tx, rx);
    if local == Got(None) {
      FirstAnswerIsUnique(Reckoned(cfg, es), rx, r);
    }
  }

  lemma FirstAnswerIsUnique(asked: nat, rx: nat -> Recv<Option<Bytes>>, r: Lookup)
    requires asked >= 1 && FirstAnswer(asked, rx, r)
    ensures r != Underflow && r != Rejected
    ensures r == NotFound <==> NonesBefore(rx, asked)
    ensures forall v :: r == Found(v) <==>
              exists k: nat :: k < asked && NonesBefore(rx, k) && rx(k) == Got(Some(v))
  {
    if r.Found? || r.Broken? {
      var k: nat :| k < asked && NonesBefore(rx, k) && rx(k) == (if r.Found? then Got(Some(r.value)) else Closed);
      forall v, j: nat | j < asked && NonesBefore(rx, j) && rx(j) == Got(Some(v)) ensures r == Found(v) {
        assert j < k ==> rx(j) == Got(None);
        assert k < j ==> rx(k) == Got(None);
      }
    }
  }

  // ----- two quorum writes share a host

  /** The hosts that have queued a write: the leader, and whoever sent one of the positive responses
      that it has read. */
  function QueuedBy(leader: Addr, from: nat -> Addr, rx: nat -> Recv<bool>, k: nat): set<Addr> {
    if k == 0 then {leader}
    else QueuedBy(leader, from, rx, k - 1) + if rx(k - 1) == Got(true) then {from(k - 1)} else {}
  }

  /** Every client answers at most once per write, and only clients answer. */
  ghost predicate OneShot(leader: Addr, from: nat -> Addr, rx: nat -> Recv<bool>, members: set<Addr>, k: nat) {
    && (forall i: nat :: i < k && rx(i) == Got(true) ==> from(i) in members && from(i) != leader)
    && (forall i: nat, j: nat :: i < j < k && rx(i) == Got(true) && rx(j) == Got(true) ==> from(i) != from(j))
  }

  lemma {:induction false} QueuedByTrues(leader: Addr, from: nat -> Addr, rx: nat -> Recv<bool>,
                                         members: set<Addr>, k: nat)
    requires OneShot(leader, from, rx, members, k) && leader in members
    ensures |QueuedBy(leader, from, rx, k)| == Trues(rx, k) + 1
    ensures QueuedBy(leader, from, rx, k) <= members
    ensures forall a :: a in QueuedBy(leader, from, rx, k) ==>
              a == leader || exists i: nat :: i < k && rx(i) == Got(true) && from(i) == a
  {
    if k == 0 {
    } else {
      QueuedByTrues(leader, from, rx, members, k - 1);
    }
  }

  /** A write at quorum level is reported as acked exactly if it has been queued by more than half of the cluster,
      as far as the leader has heard; but without a connected host the report is empty. */
  lemma QuorumWriteHasMajority(leader: Addr, from: nat -> Addr, rx: nat -> Recv<bool>,
                               members: set<Addr>, connected: nat)
    requires leader in members && |members| >= 2 && OneShot(leader, from, rx, members, connected)
    ensures QueuedBy(leader, from, rx, connected) <= members
    ensures var acked := Acked(AckLevel.Quorum, |members| / 2, connected, rx);
            var majority := 2 * |QueuedBy(leader, from, rx, connected)| > |members|;
            if connected >= 1 then acked <==> majority else acked && !majority
  {
    QueuedByTrues(leader, from, rx, members, connected);
  }

  /** All hosts of the cluster that a configuration describes. */
  function ClusterOf(cfg: Config): set<Addr> {
    cfg.peers + {cfg.whoami}
  }

  /** The handler of this leader has a quorum, and at most one response comes from each client. */
  ghost predicate CanLead(cfg: Config, es: seq<Event>, from: nat -> Addr, rx: nat -> Recv<bool>) {
    && ValidConfig(cfg) && ValidRun(Init(cfg), es) && Exec(Init(cfg), es).health != Bad
    && OneShot(cfg.whoami, from, rx, ClusterOf(cfg), Reckoned(cfg, es))
  }

  ghost function QueuedAfter(cfg: Config, es: seq<Event>, from: nat -> Addr, rx: nat -> Recv<bool>): set<Addr> {
    QueuedBy(cfg.whoami, from, rx, Reckoned(cfg, es))
  }

  lemma AckedAfterAnyRun(cfg: Config, es: seq<Event>, from: nat -> Addr, rx: nat -> Recv<bool>)
    requires CanLead(cfg, es, from, rx)
    ensures QueuedAfter(cfg, es, from, rx) <= ClusterOf(cfg)
    ensures Acked(AckLevel.Quorum, cfg.Quorum(), Reckoned(cfg, es), rx)
            <==> 2 * |QueuedAfter(cfg, es, from, rx)| > |ClusterOf(cfg)|
  {
    hide Exec, ValidRun, QueuedBy, Unseen;
    SnapshotCanBeTrusted(cfg, es);
    RunKeepsInv(cfg, es);
    assert |ClusterOf(cfg)| == |cfg.peers| + 1;
    PublishedHostsAreCounted(cfg, es);
    QuorumWriteHasMajority(cfg.whoami, from, rx, ClusterOf(cfg), Reckoned(cfg, es));
  }

  /** After any run of the handler that ends with a quorum, an insert at quorum level is reported as acked exactly if
      it has been queued by more than half of the cluster, as far as the leader has heard. */
  method AckedInsertHasMajority(h: Host, ghost cfg: Config, ghost es: seq<Event>, cacheName: string, entry: string,
                                value: Bytes, tx: RespTx, ghost from: nat -> Addr, rx: nat -> Recv<bool>)
      returns (r: WriteOutcome)
    requires Published(h, cfg, es) && h.quorum == cfg.Quorum() && CanLead(cfg, es, from, rx)
    modifies h
    ensures QueuedAfter(cfg, es, from, rx) <= ClusterOf(cfg)
    ensures r == Finished(true)
            <==> cacheName in old(h.caches) && 2 * |QueuedAfter(cfg, es, from, rx)| > |ClusterOf(cfg)|
  {
    hide Exec, ValidRun, QueuedBy, Trues, OneShot, Unseen, Verdict;
    SnapshotCanBeTrusted(cfg, es);
    PublishedHostsAreCounted(cfg, es);
    RunKeepsInv(cfg, es);
    AckedAfterAnyRun(cfg, es, from, rx);
    r := h.InsertFromLeader(cacheName, entry, value, AckLevel.Quorum, None, tx, rx);
  }

  /** The same for a remove, on a host that leads. */
  method AckedRemoveHasMajority(h: Host, ghost cfg: Config, ghost es: seq<Event>, cacheName: string, entry: string,
                                tx: RespTx, ghost from: nat -> Addr, rx: nat -> Recv<bool>) returns (r: WriteOutcome)
    requires Published(h, cfg, es) && h.quorum == cfg.Quorum() && CanLead(cfg, es, from, rx)
    modifies h
    ensures QueuedAfter(cfg, es, from, rx) <= ClusterOf(cfg)
    ensures var n := Exec(Init(cfg), es);
            r == Finished(true)
            <==> (n.state == QuorumState.Leader || n.state == QuorumState.LeaderSwitch) && cacheName in old(h.caches)
                 && 2 * |QueuedAfter(cfg, es, from, rx)| > |ClusterOf(cfg)|
  {
    hide Exec, ValidRun, QueuedBy, Trues, OneShot, Unseen, Verdict;
    SnapshotCanBeTrusted(cfg, es);
    PublishedHostsAreCounted(cfg, es);
    RunKeepsInv(cfg, es);
    AckedAfterAnyRun(cfg, es, from, rx);
    r := h.RemoveFromLeader(cacheName, entry, AckLevel.Quorum, None, tx, rx);
  }

  /** So any two acked quorum writes, even by different leaders after different runs, have been queued by a
      common host. */
  lemma QuorumWritesMeet(cfg1: Config, es1: seq<Event>, from1: nat -> Addr, rx1: nat -> Recv<bool>,
                         cfg2: Config, es2: seq<Event>, from2: nat -> Addr, rx2: nat -> Recv<bool>) returns (a: Addr)
    requires ClusterOf(cfg1) == ClusterOf(cfg2)
    requires CanLead(cfg1, es1, from1, rx1) && CanLead(cfg2, es2, from2, rx2)
    requires Acked(AckLevel.Quorum, cfg1.Quorum(), Reckoned(cfg1, es1), rx1)
    requires Acked(AckLevel.Quorum, cfg2.Quorum(), Reckoned(cfg2, es2), rx2)
    ensures a in QueuedAfter(cfg1, es1, from1, rx1) && a in QueuedAfter(cfg2, es2, from2, rx2)
  {
    hide CanLead, Exec, Acked, QueuedBy, Unseen;
    AckedAfterAnyRun(cfg1, es1, from1, rx1);
    AckedAfterAnyRun(cfg2, es2, from2, rx2);
    var q1, q2 := QueuedAfter(cfg1, es1, from1, rx1), QueuedAfter(cfg2, es2, from2, rx2);
    if q1 * q2 == {} {
      assert |q1 + q2| == |q1| + |q2|;
      SubsetSize(q1 + q2, ClusterOf(cfg1));
    }
    a :| a in q1 * q2;
  }

  // ----- a deletion does not look at the quorum

  /** With a bad quorum a put is refused and a deletion is carried out. */
  method PutsAndDeletionsDiffer(h: Host, cacheName: string, entry: string, value: Bytes)
      returns (put: Outcome, del: Outcome)
    requires h.snapshot.Some? && !h.snapshot.value.IsQuorumGood() && cacheName in h.caches
    modifies h
    ensures put == Failed && del == Done
  {
    put := h.CachePut(cacheName, entry, value);
    del := h.CacheDel(cacheName, entry);
  }
}
