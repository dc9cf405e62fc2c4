/** The cache operations of a host in HA mode: the leader's write with its count of acks, the
    dispatch on the published snapshot, and the lookup on other hosts. */
module WritePath {
  import opened Types

  /** What the next read of a response queue yields, or that all its senders are gone. */
  datatype Recv<T> = Got(value: T) | Closed

  /** How many of the first `k` responses are true. */
  function Trues(rx: nat -> Recv<bool>, k: nat): nat {
    if k == 0 then 0 else Trues(rx, k - 1) + if rx(k - 1) == Got(true) then 1 else 0
  }

  lemma {:induction false} TruesGrow(rx: nat -> Recv<bool>, j: nat, k: nat)
    requires j <= k
    ensures Trues(rx, j) <= Trues(rx, k) <= Trues(rx, j) + k - j
    decreases k
  {
    if j == k {
    } else {
      TruesGrow(rx, j, k - 1);
    }
  }

  /** The count of `insert_from_leader` and `remove_from_leader`. It succeeds exactly if enough of the
      first `connected` responses are true, or if no host is connected at all; it never reads more
      than `connected` responses and stops at the first one that makes it enough. */
  method AwaitAcks(needed: nat, connected: nat, rx: nat -> Recv<bool>) returns (ok: bool, taken: nat)
    ensures ok <==> connected == 0 || Trues(rx, connected) >= needed
    ensures taken <= connected && (!ok ==> taken == connected)
    ensures ok && connected > 0 ==> Trues(rx, taken) == needed
    ensures forall k: nat :: k < taken ==> Trues(rx, k) < needed
  {
    var acks, clients := needed, connected;
    taken := 0;
    while acks > 0 && clients > 0
      invariant taken + clients == connected
      invariant acks + Trues(rx, taken) == needed
      invariant connected > 0 ==> clients > 0 || acks == 0
      invariant forall k: nat :: k < taken ==> Trues(rx, k) < needed
      decreases clients
    {
      match rx(taken) {
        case Got(val) =>
          if val {
            acks := acks - 1;
          }
        case Closed =>
      }
      taken := taken + 1;
      if clients == 1 && acks > 0 {
        return false, taken;
      }
      clients := clients - 1;
    }
    TruesGrow(rx, taken, connected);
    return true, taken;
  }

  datatype WriteOutcome = Finished(acked: bool) | Refused | Panicked

  datatype Outcome = Done | Failed | Crashed

  function Needed(level: AckLevel, quorum: nat): nat {
    match level
    case Quorum => quorum
    case Once => 1
    case OnlyLeader => 0
  }

  /** What a leader sends to all others; it asks for responses unless its own word is enough. */
  function PutOf(cacheName: string, entry: string, value: Bytes, level: AckLevel, tx: RespTx): RpcRequest {
    RpcRequest.Put(cacheName, entry, value, if level == OnlyLeader then None else Some(tx))
  }

  function DelOf(cacheName: string, entry: string, level: AckLevel, tx: RespTx): RpcRequest {
    RpcRequest.Del(cacheName, entry, if level == OnlyLeader then None else Some(tx))
  }

  /** Whether a write that the leader carried out is reported as acked. */
  ghost predicate Acked(level: AckLevel, quorum: nat, connected: nat, rx: nat -> Recv<bool>) {
    level == OnlyLeader || connected == 0 || Trues(rx, connected) >= Needed(level, quorum)
  }

  /** The positive ones among the first `connected` responses. */
  function Positive(rx: nat -> Recv<bool>, connected: nat): set<nat> {
    set k: nat | k < connected && rx(k) == Got(true)
  }

  lemma {:induction false} TruesAreCounted(rx: nat -> Recv<bool>, k: nat)
    ensures Trues(rx, k) == |Positive(rx, k)|
  {
    if k == 0 {
      assert Positive(rx, 0) == {};
    } else {
      TruesAreCounted(rx, k - 1);
      assert Positive(rx, k) == Positive(rx, k - 1) + if rx(k - 1) == Got(true) then {k - 1} else {};
    }
  }

  /** What each level asks of the responses, one per connected host. */
  lemma AckedMeans(quorum: nat, connected: nat, rx: nat -> Recv<bool>)
    ensures Acked(AckLevel.Quorum, quorum, connected, rx) <==> connected == 0 || |Positive(rx, connected)| >= quorum
    ensures Acked(Once, quorum, connected, rx)
            <==> connected == 0 || exists k: nat :: k < connected && rx(k) == Got(true)
    ensures Acked(OnlyLeader, quorum, connected, rx)
  {
    TruesAreCounted(rx, connected);
    if Trues(rx, connected) >= 1 {
      var k :| k in Positive(rx, connected);
    } else {
      assert Positive(rx, connected) == {};
      forall k: nat | k < connected ensures rx(k) != Got(true) { assert k !in Positive(rx, connected); }
    }
  }

  /** The verdict on a write that the leader has carried out: always yes if its own word is enough; else yes if no
      host is connected, or if among the responses of the connected hosts one is positive, or a quorum. */
  ghost predicate Verdict(level: AckLevel, quorum: nat, connected: nat, rx: nat -> Recv<bool>, acked: bool) {
    match level
    case OnlyLeader => acked
    case Once => acked <==> connected == 0 || exists k: nat :: k < connected && rx(k) == Got(true)
    case Quorum => acked <==> connected == 0 || |Positive(rx, connected)| >= quorum
  }

  // ----- the lookup on other hosts

  datatype Lookup = Found(value: Bytes) | NotFound | Broken | Underflow | Rejected

  ghost predicate NonesBefore(rx: nat -> Recv<Option<Bytes>>, k: nat) {
    forall j: nat :: j < k ==> rx(j) == Got(None)
  }

  /** What asking `connected` hosts must result in: the first answer that is not empty, if it is among as
      many as there are hosts. */
  ghost predicate FirstAnswer(connected: nat, rx: nat -> Recv<Option<Bytes>>, r: Lookup) {
    match r
    case Found(v) => exists k: nat :: (k < connected || k == 0) && NonesBefore(rx, k) && rx(k) == Got(Some(v))
    case Broken => exists k: nat :: (k < connected || k == 0) && NonesBefore(rx, k) && rx(k) == Closed
    case NotFound => connected >= 1 && NonesBefore(rx, connected)
    case Underflow => connected == 0 && rx(0) == Got(None)
    case Rejected => false
  }

  /** The response loop of `cache_get_value`. It returns the first value among the first `connected`
      answers, or that there is none; with no host connected it decrements zero. */
  method RemoteLookup(connected: nat, rx: nat -> Recv<Option<Bytes>>) returns (r: Lookup, taken: nat)
    ensures FirstAnswer(connected, rx, r)
    ensures 1 <= taken && (connected >= 1 ==> taken <= connected) && NonesBefore(rx, taken - 1)
  {
    var left := connected;
    taken := 0;
    while true
      invariant NonesBefore(rx, taken)
      invariant taken + left == connected && (taken > 0 ==> left >= 1)
      decreases left
    {
      var res := rx(taken);
      taken := taken + 1;
      ghost var last: nat := taken - 1;
      match res {
        case Closed =>
          assert rx(last) == Closed;
          return Broken, taken;
        case Got(Some(v)) =>
          assert rx(last) == Got(Some(v));
          return Found(v), taken;
        case Got(None) =>
          if left == 1 {
            return NotFound, taken;
          }
          if left == 0 {
            return Underflow, taken;
          }
          left := left - 1;
      }
    }
  }

  /** The queues of one host. `quorum` is the static number derived from the configured hosts. */
  class Host {
    const haMode: bool
    const quorum: nat
    var snapshot: Option<HealthState>
    // what was sent to all clients, to the leader's client, and to each local cache
    var remote: seq<RpcRequest>
    var forwarded: seq<(Channel, RpcRequest)>
    var caches: map<string, seq<CacheReq>>

    constructor (haMode: bool, quorum: nat)
      ensures this.haMode == haMode && this.quorum == quorum
      ensures snapshot == None && remote == [] && forwarded == [] && caches == map[]
    {
      this.haMode, this.quorum := haMode, quorum;
      snapshot, remote, forwarded, caches := None, [], [], map[];
    }

    ghost predicate Healthy()
      reads this
    {
      snapshot.Some? && snapshot.value.IsQuorumGood()
    }

    /** The snapshot that counts: the caller's own, or else the current one if its quorum is good. */
    ghost function Effective(given: Option<HealthState>): Option<HealthState>
      reads this
    {
      if given.Some? then given
      else if snapshot.Some? && snapshot.value.IsQuorumGood() then snapshot else None
    }

    ghost predicate CanWrite(cacheName: string, given: Option<HealthState>)
      reads this
    {
      haMode && Effective(given).Some? && cacheName in caches
    }

    /** One write went to all clients and to the local cache, in this order, and nothing else did. */
    twostate predicate Wrote(cacheName: string, req: RpcRequest, local: CacheReq)
      reads this
    {
      && remote == old(remote) + [req]
      && cacheName in old(caches)
      && caches == old(caches)[cacheName := old(caches)[cacheName] + [local]]
      && forwarded == old(forwarded) && snapshot == old(snapshot)
    }

    twostate predicate Untouched()
      reads this
    {
      remote == old(remote) && caches == old(caches) && forwarded == old(forwarded) && snapshot == old(snapshot)
    }

    method InsertFromLeader(cacheName: string, entry: string, value: Bytes, level: AckLevel,
                            given: Option<HealthState>, tx: RespTx, rx: nat -> Recv<bool>) returns (r: WriteOutcome)
      modifies this
      ensures !old(CanWrite(cacheName, given)) ==> r == Refused && Untouched()
      ensures given == None && !old(Healthy()) ==> r == Refused
      ensures old(CanWrite(cacheName, given)) ==>
                Wrote(cacheName, PutOf(cacheName, entry, value, level, tx),
                      CacheReq.Put(entry, value))
      ensures old(CanWrite(cacheName, given)) ==>
                r == Finished(Acked(level, quorum, old(Effective(given)).value.connectedHosts, rx))
      ensures r.Finished? ==>
                var hs := if given.Some? then given.value else old(snapshot).value;
                Verdict(level, quorum, hs.connectedHosts, rx, r.acked)
    {
      if !haMode {
        return Refused;
      }
      var hs;
      match given {
        case Some(g) => hs := g;
        case None =>
          if snapshot == None || !snapshot.value.IsQuorumGood() {
            return Refused;
          }
          hs := snapshot.value;
      }
      if cacheName !in caches {
        return Refused;
      }
      if level == OnlyLeader {
        remote := remote + [RpcRequest.Put(cacheName, entry, value, None)];
        caches := caches[cacheName := caches[cacheName] + [CacheReq.Put(entry, value)]];
        return Finished(true);
      }
      remote := remote + [RpcRequest.Put(cacheName, entry, value, Some(tx))];
      caches := caches[cacheName := caches[cacheName] + [CacheReq.Put(entry, value)]];
      var ok, _ := AwaitAcks(Needed(level, quorum), hs.connectedHosts, rx);
      AckedMeans(quorum, hs.connectedHosts, rx);
      return Finished(ok);
    }

    /** Like the insert, but it panics on a host that does not lead. */
    method RemoveFromLeader(cacheName: string, entry: string, level: AckLevel,
                            given: Option<HealthState>, tx: RespTx, rx: nat -> Recv<bool>) returns (r: WriteOutcome)
      modifies this
      ensures var leads := old(Effective(given)).Some?
                           && (old(Effective(given)).value.state == QuorumState.Leader
                               || old(Effective(given)).value.state == QuorumState.LeaderSwitch);
              && (r == Panicked <==> haMode && old(Effective(given)).Some? && !leads)
              && (leads && old(CanWrite(cacheName, given)) ==>
                  && Wrote(cacheName, DelOf(cacheName, entry, level, tx),
                           CacheReq.Del(entry))
                  && r == Finished(Acked(level, quorum, old(Effective(given)).value.connectedHosts, rx)))
              && (!(leads && old(CanWrite(cacheName, given))) ==> !r.Finished? && Untouched())
      ensures given == None && !old(Healthy()) ==> r == Refused
      ensures r.Finished? ==>
                var hs := if given.Some? then given.value else old(snapshot).value;
                Verdict(level, quorum, hs.connectedHosts, rx, r.acked)
    {
      if !haMode {
        return Refused;
      }
      var hs;
      match given {
        case Some(g) => hs := g;
        case None =>
          if snapshot == None || !snapshot.value.IsQuorumGood() {
            return Refused;
          }
          hs := snapshot.value;
      }
      if hs.state != QuorumState.Leader && hs.state != QuorumState.LeaderSwitch {
        return Panicked;
      }
      if cacheName !in caches {
        return Refused;
      }
      if level == OnlyLeader {
        remote := remote + [RpcRequest.Del(cacheName, entry, None)];
        caches := caches[cacheName := caches[cacheName] + [CacheReq.Del(entry)]];
        return Finished(true);
      }
      remote := remote + [RpcRequest.Del(cacheName, entry, Some(tx))];
      caches := caches[cacheName := caches[cacheName] + [CacheReq.Del(entry)]];
      var ok, _ := AwaitAcks(Needed(level, quorum), hs.connectedHosts, rx);
      AckedMeans(quorum, hs.connectedHosts, rx);
      return Finished(ok);
    }

    /** What a direct operation does: it is queued locally and, with HA, for all others. */
    twostate predicate Direct(cacheName: string, req: RpcRequest, local: CacheReq, broadcast: bool)
      reads this
    {
      && cacheName in old(caches)
      && caches == old(caches)[cacheName := old(caches)[cacheName] + [local]]
      && remote == old(remote) + (if broadcast then [req] else [])
      && forwarded == old(forwarded) && snapshot == old(snapshot)
    }

    method CachePut(cacheName: string, entry: string, value: Bytes) returns (r: Outcome)
      modifies this
      ensures r == Done <==> cacheName in old(caches) && (old(snapshot).Some? ==> old(Healthy()))
      ensures r == Done ==> Direct(cacheName, RpcRequest.Put(cacheName, entry, value, None), CacheReq.Put(entry, value),
                                   old(snapshot).Some?)
      ensures r != Done ==> r == Failed && Untouched()
    {
      if (snapshot.Some? && !snapshot.value.IsQuorumGood()) || cacheName !in caches {
        return Failed;
      }
      caches := caches[cacheName := caches[cacheName] + [CacheReq.Put(entry, value)]];
      if snapshot.Some? {
        remote := remote + [RpcRequest.Put(cacheName, entry, value, None)];
      }
      return Done;
    }

    method CacheDel(cacheName: string, entry: string) returns (r: Outcome)
      modifies this
      ensures r == Done <==> cacheName in old(caches)
      ensures r == Done ==> Direct(cacheName, RpcRequest.Del(cacheName, entry, None), CacheReq.Del(entry), haMode)
      ensures r != Done ==> r == Failed && Untouched()
    {
      if cacheName !in caches {
        return Failed;
      }
      caches := caches[cacheName := caches[cacheName] + [CacheReq.Del(entry)]];
      if haMode {
        remote := remote + [RpcRequest.Del(cacheName, entry, None)];
      }
      return Done;
    }

    /** `cache_get_value`: the local cache first, whose answer is `local`; only if it has nothing, and with HA
        and on demand, all other hosts. */
    method CacheGetValue(cacheName: string, entry: string, remoteLookup: bool, local: Recv<Option<Bytes>>,
                         tx: RespTx, rx: nat -> Recv<Option<Bytes>>) returns (r: Lookup)
      modifies this
      ensures r == Rejected <==> cacheName !in old(caches) || (old(snapshot).Some? && !old(Healthy()))
      ensures r == Rejected ==> Untouched()
      ensures r != Rejected ==>
                var asks := local == Got(None) && old(snapshot).Some? && remoteLookup;
                && forwarded == old(forwarded) && snapshot == old(snapshot)
                && cacheName in old(caches)
                && caches == old(caches)[cacheName := old(caches)[cacheName] + [CacheReq.Get(entry)]]
                && remote == old(remote) + (if asks then [RpcRequest.Get(cacheName, entry, tx)] else [])
                && (if asks then FirstAnswer(old(snapshot).value.connectedHosts, rx, r)
                    else r == match local
                              case Closed => Broken
                              case Got(Some(v)) => Found(v)
                              case Got(None) => NotFound)
    {
      if (snapshot.Some? && !snapshot.value.IsQuorumGood()) || cacheName !in caches {
        return Rejected;
      }
      caches := caches[cacheName := caches[cacheName] + [CacheReq.Get(entry)]];
      match local {
        case Closed => return Broken;
        case Got(Some(v)) => return Found(v);
        case Got(None) =>
          if snapshot.Some? && remoteLookup {
            remote := remote + [RpcRequest.Get(cacheName, entry, tx)];
            var found, _ := RemoteLookup(snapshot.value.connectedHosts, rx);
            return found;
          }
          return NotFound;
      }
    }

    /** The leader's own write behind `cache_insert` and `cache_remove`. */
    twostate predicate LedWrite(cacheName: string, req: RpcRequest, local: CacheReq, r: Outcome)
      reads this
    {
      if cacheName in old(caches) then r == Done && Wrote(cacheName, req, local) else r == Failed && Untouched()
    }

    /** A follower's request went to the leader's channel, and its answer decides. */
    twostate predicate Forwarded(req: RpcRequest, reply: Recv<bool>, r: Outcome)
      reads this
    {
      && remote == old(remote) && caches == old(caches) && snapshot == old(snapshot)
      && old(snapshot).Some?
      && match old(snapshot).value.txLeader
         case None => r == Crashed && forwarded == old(forwarded)
         case Some(tx) =>
           r == (if reply == Got(true) then Done else Failed) && forwarded == old(forwarded) + [(tx, req)]
    }

    /** `cache_insert`: the leader writes itself, a follower forwards to its leader, all others refuse;
        without HA it is a direct put. `reply` is the leader's answer to a forwarded request. */
    method CacheInsert(cacheName: string, entry: string, value: Bytes, level: AckLevel,
                       tx: RespTx, rx: nat -> Recv<bool>, reply: Recv<bool>) returns (r: Outcome)
      modifies this
      ensures !haMode ==>
                if r == Done
                then Direct(cacheName, RpcRequest.Put(cacheName, entry, value, None), CacheReq.Put(entry, value),
                            old(snapshot).Some?)
                else r == Failed && Untouched()
      ensures haMode && !old(Healthy()) ==> r == Failed && Untouched()
      ensures haMode && old(Healthy()) ==>
                match old(snapshot).value.state
                case Leader =>
                  LedWrite(cacheName, PutOf(cacheName, entry, value, level, tx), CacheReq.Put(entry, value), r)
                case LeaderSwitch =>
                  LedWrite(cacheName, PutOf(cacheName, entry, value, level, tx), CacheReq.Put(entry, value), r)
                case Follower => Forwarded(RpcRequest.Insert(cacheName, entry, value, level, tx), reply, r)
                case _ => r == Failed && Untouched()
    {
      if !haMode {
        r := CachePut(cacheName, entry, value);
        return;
      }
      if snapshot == None || !snapshot.value.IsQuorumGood() {
        return Failed;
      }
      var hs := snapshot.value;
      match hs.state {
        case Leader =>
          var w := InsertFromLeader(cacheName, entry, value, level, Some(hs), tx, rx);
          return if w == Refused then Failed else Done;
        case LeaderSwitch =>
          var w := InsertFromLeader(cacheName, entry, value, level, Some(hs), tx, rx);
          return if w == Refused then Failed else Done;
        case Follower =>
          if hs.txLeader == None {
            return Crashed;
          }
          forwarded := forwarded + [(hs.txLeader.value, RpcRequest.Insert(cacheName, entry, value, level, tx))];
          return if reply == Got(true) then Done else Failed;
        case _ =>
          return Failed;
      }
    }

    /** `cache_remove`; unlike the insert it takes it for impossible that the handler is undecided while
        the quorum is good. */
    method CacheRemove(cacheName: string, entry: string, level: AckLevel,
                       tx: RespTx, rx: nat -> Recv<bool>, reply: Recv<bool>) returns (r: Outcome)
      modifies this
      ensures !haMode ==>
                if r == Done then Direct(cacheName, RpcRequest.Del(cacheName, entry, None), CacheReq.Del(entry), false)
                else r == Failed && Untouched()
      ensures haMode && !old(Healthy()) ==> r == Failed && Untouched()
      ensures haMode && old(Healthy()) ==>
                match old(snapshot).value.state
                case Leader => LedWrite(cacheName, DelOf(cacheName, entry, level, tx), CacheReq.Del(entry), r)
                case LeaderSwitch => LedWrite(cacheName, DelOf(cacheName, entry, level, tx), CacheReq.Del(entry), r)
                case Follower => Forwarded(RpcRequest.Remove(cacheName, entry, level, tx), reply, r)
                case Undefined => r == Crashed && Untouched()
                case Retry => r == Crashed && Untouched()
                case _ => r == Failed && Untouched()
    {
      if !haMode {
        r := CacheDel(cacheName, entry);
        return;
      }
      if snapshot == None || !snapshot.value.IsQuorumGood() {
        return Failed;
      }
      var hs := snapshot.value;
      match hs.state {
        case Leader =>
          var w := RemoveFromLeader(cacheName, entry, level, Some(hs), tx, rx);
          return if w == Refused then Failed else Done;
        case LeaderSwitch =>
          var w := RemoveFromLeader(cacheName, entry, level, Some(hs), tx, rx);
          return if w == Refused then Failed else Done;
        case Follower =>
          if hs.txLeader == None {
            return Crashed;
          }
          forwarded := forwarded + [(hs.txLeader.value, RpcRequest.Remove(cacheName, entry, level, tx))];
          return if reply == Got(true) then Done else Failed;
        case Undefined =>
          return Crashed;
        case Retry =>
          return Crashed;
        case _ =>
          return Failed;
      }
    }
  }
}
