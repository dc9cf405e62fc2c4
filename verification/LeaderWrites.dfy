/** A leader's write on all hosts: what its own caches are asked is what every other server asks its caches, and who
    answers; and a follower's write that its leader carries out. */
module LeaderWrites {
  import opened Types
  import opened WritePath
  import opened Replication

  /** From `before` to the caches of `h`, every cache was asked what a server that applies `req` asks it. */
  ghost predicate AskedLikeAll(before: map<string, seq<CacheReq>>, after: map<string, seq<CacheReq>>, req: RpcRequest) {
    && after.Keys == before.Keys
    && forall n :: n in before ==> after[n] == before[n] + Applied([req], n)
  }

  lemma AppliedPut(req: RpcRequest, n: string)
    requires req.Put? || req.Del?
    ensures Applied([req], n)
         == if req.cacheName != n then []
            else if req.Put? then [CacheReq.Put(req.entry, req.value)] else [CacheReq.Del(req.entry)]
  {
    assert [req][..0] == [];
  }

  lemma AskedOne(before: map<string, seq<CacheReq>>, after: map<string, seq<CacheReq>>, req: RpcRequest,
                 local: CacheReq)
    requires (req.Put? || req.Del?) && req.cacheName in before
    requires local == if req.Put? then CacheReq.Put(req.entry, req.value) else CacheReq.Del(req.entry)
    requires after == before[req.cacheName := before[req.cacheName] + [local]]
    ensures AskedLikeAll(before, after, req)
  {
    forall n | n in before ensures after[n] == before[n] + Applied([req], n) {
      AppliedPut(req, n);
      assert before[n] + [] == before[n];
    }
  }

  /** A server that knows the cache does what the leader did and answers the leader, if it asked for an answer. */
  ghost predicate ServedBy(names: set<string>, req: RpcRequest, cacheName: string, local: CacheReq,
                           answer: Option<RespTx>)
  {
    cacheName in names ==>
      DeedsOn(req, names) == [Queued(cacheName, local)] + if answer.Some? then [Acked(answer.value)] else []
  }

  /** An insert by the leader. Its last broadcast asks every cache anywhere for the same as its own caches were, and
      every server that knows the cache answers, unless the leader's own word is enough. */
  method InsertEverywhere(h: Host, cacheName: string, entry: string, value: Bytes, level: AckLevel,
                          tx: RespTx, rx: nat -> Recv<bool>, ghost names: set<string>) returns (r: WriteOutcome)
    requires h.haMode && h.Healthy() && cacheName in h.caches
    modifies h
    ensures |h.remote| == |old(h.remote)| + 1 && h.remote[..|old(h.remote)|] == old(h.remote)
    ensures var req := h.remote[|old(h.remote)|];
            && AskedLikeAll(old(h.caches), h.caches, req)
            && ServedBy(names, req, cacheName, CacheReq.Put(entry, value),
                        if level == OnlyLeader then None else Some(tx))
    ensures r.Finished? && Verdict(level, h.quorum, old(h.snapshot).value.connectedHosts, rx, r.acked)
  {
    r := h.InsertFromLeader(cacheName, entry, value, level, None, tx, rx);
    AskedOne(old(h.caches), h.caches, h.remote[|old(h.remote)|], CacheReq.Put(entry, value));
  }

  method RemoveEverywhere(h: Host, cacheName: string, entry: string, level: AckLevel,
                          tx: RespTx, rx: nat -> Recv<bool>, ghost names: set<string>) returns (r: WriteOutcome)
    requires h.haMode && h.Healthy() && cacheName in h.caches
    requires h.snapshot.value.state == QuorumState.Leader || h.snapshot.value.state == QuorumState.LeaderSwitch
    modifies h
    ensures |h.remote| == |old(h.remote)| + 1 && h.remote[..|old(h.remote)|] == old(h.remote)
    ensures var req := h.remote[|old(h.remote)|];
            && AskedLikeAll(old(h.caches), h.caches, req)
            && ServedBy(names, req, cacheName, CacheReq.Del(entry), if level == OnlyLeader then None else Some(tx))
    ensures r.Finished? && Verdict(level, h.quorum, old(h.snapshot).value.connectedHosts, rx, r.acked)
  {
    r := h.RemoveFromLeader(cacheName, entry, level, None, tx, rx);
    AskedOne(old(h.caches), h.caches, h.remote[|old(h.remote)|], CacheReq.Del(entry));
  }

  /** Direct writes on any host in HA mode: the same, but nobody answers. */
  method DirectEverywhere(h: Host, cacheName: string, entry: string, value: Bytes, ghost names: set<string>)
    requires h.haMode && h.Healthy() && cacheName in h.caches
    modifies h
    ensures |h.remote| == |old(h.remote)| + 2 && h.remote[..|old(h.remote)|] == old(h.remote)
    ensures var put, del := h.remote[|old(h.remote)|], h.remote[|old(h.remote)| + 1];
            && ServedBy(names, put, cacheName, CacheReq.Put(entry, value), None)
            && ServedBy(names, del, cacheName, CacheReq.Del(entry), None)
            && exists between :: AskedLikeAll(old(h.caches), between, put) && AskedLikeAll(between, h.caches, del)
  {
    var _ := h.CachePut(cacheName, entry, value);
    ghost var between := h.caches;
    AskedOne(old(h.caches), between, h.remote[|old(h.remote)|], CacheReq.Put(entry, value));
    var _ := h.CacheDel(cacheName, entry);
    AskedOne(between, h.caches, h.remote[|old(h.remote)| + 1], CacheReq.Del(entry));
  }

  /** `cache_insert` and `cache_remove` on a host that leads: every cache anywhere is asked for the same, whatever the
      other hosts answer; without the cache, nothing happens. */
  method InsertAsLeader(h: Host, cacheName: string, entry: string, value: Bytes, level: AckLevel, tx: RespTx,
                        rx: nat -> Recv<bool>, reply: Recv<bool>, ghost names: set<string>) returns (r: Outcome)
    requires h.haMode && h.Healthy()
    requires h.snapshot.value.state == QuorumState.Leader || h.snapshot.value.state == QuorumState.LeaderSwitch
    modifies h
    ensures h.forwarded == old(h.forwarded) && h.snapshot == old(h.snapshot)
    ensures if cacheName !in old(h.caches) then r == Failed && h.remote == old(h.remote) && h.caches == old(h.caches)
            else
              && r == Done && |h.remote| == |old(h.remote)| + 1 && h.remote[..|old(h.remote)|] == old(h.remote)
              && AskedLikeAll(old(h.caches), h.caches, h.remote[|old(h.remote)|])
              && ServedBy(names, h.remote[|old(h.remote)|], cacheName, CacheReq.Put(entry, value),
                          if level == OnlyLeader then None else Some(tx))
  {
    r := h.CacheInsert(cacheName, entry, value, level, tx, rx, reply);
    if cacheName in old(h.caches) {
      AskedOne(old(h.caches), h.caches, h.remote[|old(h.remote)|], CacheReq.Put(entry, value));
    }
  }

  method RemoveAsLeader(h: Host, cacheName: string, entry: string, level: AckLevel, tx: RespTx,
                        rx: nat -> Recv<bool>, reply: Recv<bool>, ghost names: set<string>) returns (r: Outcome)
    requires h.haMode && h.Healthy()
    requires h.snapshot.value.state == QuorumState.Leader || h.snapshot.value.state == QuorumState.LeaderSwitch
    modifies h
    ensures h.forwarded == old(h.forwarded) && h.snapshot == old(h.snapshot)
    ensures if cacheName !in old(h.caches) then r == Failed && h.remote == old(h.remote) && h.caches == old(h.caches)
            else
              && r == Done && |h.remote| == |old(h.remote)| + 1 && h.remote[..|old(h.remote)|] == old(h.remote)
              && AskedLikeAll(old(h.caches), h.caches, h.remote[|old(h.remote)|])
              && ServedBy(names, h.remote[|old(h.remote)|], cacheName, CacheReq.Del(entry),
                          if level == OnlyLeader then None else Some(tx))
  {
    r := h.CacheRemove(cacheName, entry, level, tx, rx, reply);
    if cacheName in old(h.caches) {
      AskedOne(old(h.caches), h.caches, h.remote[|old(h.remote)|], CacheReq.Del(entry));
    }
  }

  // ----- a follower's write

  /** What the leader's server answers on the follower's stream; without an answer the stream breaks. */
  function ReplyOf(w: WriteOutcome): Recv<bool> {
    if w.Finished? then Got(w.acked) else Closed
  }

  /** The follower's insert succeeds exactly if the leader finds it acked, and only the leader writes. */
  method InsertThroughLeader(f: Host, l: Host, cacheName: string, entry: string, value: Bytes, level: AckLevel,
                             tx: RespTx, txL: RespTx, rx: nat -> Recv<bool>) returns (r: Outcome)
    requires f != l && f.haMode && f.Healthy() && f.snapshot.value.state == Follower && f.snapshot.value.txLeader.Some?
    requires l.haMode && l.Healthy() && cacheName in l.caches
    modifies f, l
    ensures f.forwarded == old(f.forwarded)
            + [(old(f.snapshot).value.txLeader.value, RpcRequest.Insert(cacheName, entry, value, level, tx))]
    ensures f.caches == old(f.caches) && f.remote == old(f.remote)
    ensures Verdict(level, l.quorum, old(l.snapshot).value.connectedHosts, rx, r == Done) && r != Crashed
    ensures |l.remote| == |old(l.remote)| + 1
            && AskedLikeAll(old(l.caches), l.caches, l.remote[|old(l.remote)|])
  {
    var w := InsertEverywhere(l, cacheName, entry, value, level, txL, rx, {});
    r := f.CacheInsert(cacheName, entry, value, level, tx, rx, ReplyOf(w));
  }

  method RemoveThroughLeader(f: Host, l: Host, cacheName: string, entry: string, level: AckLevel,
                             tx: RespTx, txL: RespTx, rx: nat -> Recv<bool>) returns (r: Outcome)
    requires f != l && f.haMode && f.Healthy() && f.snapshot.value.state == Follower && f.snapshot.value.txLeader.Some?
    requires l.haMode && l.Healthy() && cacheName in l.caches
    modifies f, l
    ensures f.forwarded == old(f.forwarded)
            + [(old(f.snapshot).value.txLeader.value, RpcRequest.Remove(cacheName, entry, level, tx))]
    ensures f.caches == old(f.caches) && f.remote == old(f.remote) && r != Crashed
    ensures var leads := old(l.snapshot).value.state == QuorumState.Leader
                         || old(l.snapshot).value.state == QuorumState.LeaderSwitch;
            if leads then
              && Verdict(level, l.quorum, old(l.snapshot).value.connectedHosts, rx, r == Done)
              && |l.remote| == |old(l.remote)| + 1
              && AskedLikeAll(old(l.caches), l.caches, l.remote[|old(l.remote)|])
            else r == Failed && l.remote == old(l.remote) && l.caches == old(l.caches)
  {
    var w;
    if l.snapshot.value.state == QuorumState.Leader || l.snapshot.value.state == QuorumState.LeaderSwitch {
      w := RemoveEverywhere(l, cacheName, entry, level, txL, rx, {});
    } else {
      w := l.RemoveFromLeader(cacheName, entry, level, None, txL, rx);
    }
    r := f.CacheRemove(cacheName, entry, level, tx, rx, ReplyOf(w));
  }
}
