/** The table of one client that leads a modification's answer back to whoever waits for it. */
module Correlator {
  import opened Types

  datatype HAReq =
    | SaveModCallbackTx(reqId: string, tx: RespTx)
    | SendCacheModResponse(reqId: string, value: bool)

  function Saves(log: seq<HAReq>, tx: RespTx): nat
    decreases |log|
  {
    if log == [] then 0
    else Saves(log[..|log| - 1], tx)
         + if log[|log| - 1].SaveModCallbackTx? && log[|log| - 1].tx == tx then 1 else 0
  }

  function Deliveries(sent: seq<(RespTx, bool)>, tx: RespTx): nat
    decreases |sent|
  {
    if sent == [] then 0 else Deliveries(sent[..|sent| - 1], tx) + if sent[|sent| - 1].0 == tx then 1 else 0
  }

  /** The entries of the table that wait on `tx`. */
  ghost function Waiting(table: map<string, RespTx>, tx: RespTx): set<string> {
    set id | id in table && table[id] == tx
  }

  /** The value came from a server's response to a request whose id had been saved for `tx`. */
  ghost predicate Justified(log: seq<HAReq>, tx: RespTx, value: bool) {
    exists i, j :: 0 <= i < j < |log| && log[i].SaveModCallbackTx? && log[i].tx == tx
                   && log[j] == SendCacheModResponse(log[i].reqId, value)
  }

  lemma WaitingGrows(table: map<string, RespTx>, id: string, tx: RespTx, other: RespTx)
    ensures |Waiting(table[id := tx], other)| <= |Waiting(table, other)| + if tx == other then 1 else 0
  {
    var w, w' := Waiting(table, other), Waiting(table[id := tx], other);
    if tx == other {
      assert w' == w + {id};
    } else {
      assert w' == w - {id};
      assert |w - {id}| <= |w|;
    }
  }

  lemma WaitingShrinks(table: map<string, RespTx>, gone: set<string>, tx: RespTx)
    ensures |Waiting(table - gone, tx)| <= |Waiting(table, tx)|
    ensures forall id :: id in table && id in gone && table[id] == tx ==>
              |Waiting(table - gone, tx)| + 1 <= |Waiting(table, tx)|
  {
    var w, w' := Waiting(table, tx), Waiting(table - gone, tx);
    assert w == w' + (w - w');
    assert |w| == |w'| + |w - w'|;
    forall id | id in table && id in gone && table[id] == tx ensures |w'| + 1 <= |w| {
      assert id in w - w';
    }
  }

  /** The invariant of the callback task after it has received `log`. */
  ghost predicate TableOk(log: seq<HAReq>, table: map<string, RespTx>, sent: seq<(RespTx, bool)>) {
    && (forall tx :: Deliveries(sent, tx) + |Waiting(table, tx)| <= Saves(log, tx))
    && (forall id :: id in table ==> SaveModCallbackTx(id, table[id]) in log)
    && (forall k :: 0 <= k < |sent| ==> Justified(log, sent[k].0, sent[k].1))
  }

  lemma StillJustified(log: seq<HAReq>, req: HAReq, tx: RespTx, value: bool)
    requires Justified(log, tx, value)
    ensures Justified(log + [req], tx, value)
  {
    var i, j :| 0 <= i < j < |log| && log[i].SaveModCallbackTx? && log[i].tx == tx
                && log[j] == SendCacheModResponse(log[i].reqId, value);
    assert (log + [req])[i] == log[i] && (log + [req])[j] == log[j];
  }

  lemma ExpireStep(log: seq<HAReq>, table: map<string, RespTx>, sent: seq<(RespTx, bool)>, gone: set<string>)
    requires TableOk(log, table, sent)
    ensures TableOk(log, table - gone, sent)
  {
    forall tx ensures Deliveries(sent, tx) + |Waiting(table - gone, tx)| <= Saves(log, tx) {
      WaitingShrinks(table, gone, tx);
    }
  }

  lemma SaveStep(log: seq<HAReq>, table: map<string, RespTx>, sent: seq<(RespTx, bool)>, id: string, tx: RespTx)
    requires TableOk(log, table, sent)
    ensures TableOk(log + [SaveModCallbackTx(id, tx)], table[id := tx], sent)
  {
    var log' := log + [SaveModCallbackTx(id, tx)];
    assert log'[..|log|] == log;
    forall other ensures Deliveries(sent, other) + |Waiting(table[id := tx], other)| <= Saves(log', other) {
      WaitingGrows(table, id, tx, other);
    }
    forall k | 0 <= k < |sent| ensures Justified(log', sent[k].0, sent[k].1) {
      StillJustified(log, log'[|log|], sent[k].0, sent[k].1);
    }
  }

  lemma RespondStep(log: seq<HAReq>, table: map<string, RespTx>, sent: seq<(RespTx, bool)>, id: string, value: bool)
    requires TableOk(log, table, sent)
    ensures var log' := log + [SendCacheModResponse(id, value)];
            if id in table then TableOk(log', table - {id}, sent + [(table[id], value)]) else TableOk(log', table, sent)
  {
    var req := SendCacheModResponse(id, value);
    var log' := log + [req];
    assert log'[..|log|] == log;
    var sent' := if id in table then sent + [(table[id], value)] else sent;
    assert id in table ==> sent'[..|sent|] == sent;
    if id in table {
      forall tx ensures Deliveries(sent', tx) + |Waiting(table - {id}, tx)| <= Saves(log', tx) {
        WaitingShrinks(table, {id}, tx);
      }
    }
    forall k | 0 <= k < |sent'| ensures Justified(log', sent'[k].0, sent'[k].1) {
      if k < |sent| {
        StillJustified(log, req, sent[k].0, sent[k].1);
      } else {
        var i :| 0 <= i < |log| && log[i] == SaveModCallbackTx(id, table[id]);
        assert log'[i] == log[i] && log'[|log|] == req;
      }
    }
  }

  lemma NothingYet()
    ensures TableOk([], map[], [])
  { }

  lemma AllJustified(log: seq<HAReq>, table: map<string, RespTx>, sent: seq<(RespTx, bool)>)
    requires TableOk(log, table, sent)
    ensures forall tx :: Deliveries(sent, tx) <= Saves(log, tx)
    ensures forall k :: 0 <= k < |sent| ==> Justified(log, sent[k].0, sent[k].1)
  { }

  // ----- which answer reaches which channel

  /** The i-th request saved a channel, and before the n-th one its id has neither been used again nor expired. */
  ghost predicate Pending(log: seq<HAReq>, expired: nat -> set<string>, i: nat, n: nat)
    requires n <= |log|
  {
    && i < n && log[i].SaveModCallbackTx?
    && forall k :: i < k < n ==> log[k].reqId != log[i].reqId && log[i].reqId !in expired(k)
  }

  /** The j-th request is the response to what the i-th one saved, and comes in time. */
  ghost predicate Reaches(log: seq<HAReq>, expired: nat -> set<string>, i: nat, j: nat) {
    && i < j < |log| && log[i].SaveModCallbackTx? && log[j].SendCacheModResponse? && log[j].reqId == log[i].reqId
    && (forall k :: i < k < j ==> log[k].reqId != log[i].reqId)
    && (forall k :: i < k <= j ==> log[i].reqId !in expired(k))
  }

  /** The table holds exactly what is pending. */
  ghost predicate Holds(log: seq<HAReq>, expired: nat -> set<string>, n: nat, table: map<string, RespTx>)
    requires n <= |log|
  {
    && (forall i: nat :: Pending(log, expired, i, n) ==> log[i].reqId in table && table[log[i].reqId] == log[i].tx)
    && (forall id :: id in table ==> exists i: nat :: Pending(log, expired, i, n) && log[i].reqId == id)
  }

  /** `at` are the responses that have reached a channel, in order, and `sent` is what they delivered. */
  ghost predicate Delivered(log: seq<HAReq>, expired: nat -> set<string>, n: nat, at: seq<nat>,
                            sent: seq<(RespTx, bool)>)
  {
    && |at| == |sent|
    && (forall k, l :: 0 <= k < l < |at| ==> at[k] < at[l])
    && (forall k :: 0 <= k < |at| ==> at[k] < n && DeliveredBy(log, expired, at[k], sent[k]))
    && (forall i: nat, j: nat :: j < n && Reaches(log, expired, i, j) ==> j in at)
  }

  ghost predicate DeliveredBy(log: seq<HAReq>, expired: nat -> set<string>, j: nat, delivery: (RespTx, bool)) {
    exists i: nat :: Reaches(log, expired, i, j) && delivery == (log[i].tx, log[j].value)
  }

  lemma PendingStep(log: seq<HAReq>, expired: nat -> set<string>, i: nat, n: nat)
    requires n < |log|
    ensures i < n ==> (Pending(log, expired, i, n + 1)
                       <==> Pending(log, expired, i, n) && log[n].reqId != log[i].reqId && log[i].reqId !in expired(n))
    ensures Reaches(log, expired, i, n) <==> Pending(log, expired, i, n) && log[n].SendCacheModResponse?
                                             && log[n].reqId == log[i].reqId && log[i].reqId !in expired(n)
  { }

  lemma HoldsStep(log: seq<HAReq>, expired: nat -> set<string>, n: nat, table: map<string, RespTx>)
    requires n < |log| && Holds(log, expired, n, table)
    ensures var rest := table - expired(n) - {log[n].reqId};
            Holds(log, expired, n + 1, if log[n].SaveModCallbackTx? then rest[log[n].reqId := log[n].tx] else rest)
  {
    hide Reaches, Pending;
    forall i: nat | i < n
      ensures Pending(log, expired, i, n + 1)
              <==> Pending(log, expired, i, n) && log[n].reqId != log[i].reqId && log[i].reqId !in expired(n)
    {
      PendingStep(log, expired, i, n);
    }
    SavedIsPending(log, expired, n);
    PendingIsEarlier(log, expired, n);
    PendingIsEarlier(log, expired, n + 1);
  }

  lemma SavedIsPending(log: seq<HAReq>, expired: nat -> set<string>, n: nat)
    requires n < |log|
    ensures Pending(log, expired, n, n + 1) <==> log[n].SaveModCallbackTx?
  { }

  lemma PendingIsEarlier(log: seq<HAReq>, expired: nat -> set<string>, n: nat)
    requires n <= |log|
    ensures forall i: nat :: Pending(log, expired, i, n) ==> i < n && log[i].SaveModCallbackTx?
  { }

  lemma DeliveredStep(log: seq<HAReq>, expired: nat -> set<string>, n: nat, table: map<string, RespTx>, at: seq<nat>,
                      sent: seq<(RespTx, bool)>)
    requires n < |log| && Holds(log, expired, n, table) && Delivered(log, expired, n, at, sent)
    ensures if log[n].SendCacheModResponse? && log[n].reqId in table - expired(n)
            then Delivered(log, expired, n + 1, at + [n], sent + [(table[log[n].reqId], log[n].value)])
            else Delivered(log, expired, n + 1, at, sent)
  {
    if log[n].SendCacheModResponse? && log[n].reqId in table - expired(n) {
      ResponseFinds(log, expired, n, table);
    }
    NothingElseReaches(log, expired, n, table);
    hide Reaches, Holds, DeliveredBy;
  }

  lemma ResponseFinds(log: seq<HAReq>, expired: nat -> set<string>, n: nat, table: map<string, RespTx>)
    requires n < |log| && Holds(log, expired, n, table)
    requires log[n].SendCacheModResponse? && log[n].reqId in table - expired(n)
    ensures DeliveredBy(log, expired, n, (table[log[n].reqId], log[n].value))
  {
    hide Reaches;
    var i: nat :| Pending(log, expired, i, n) && log[i].reqId == log[n].reqId;
    PendingStep(log, expired, i, n);
    assert Reaches(log, expired, i, n);
  }

  lemma NothingElseReaches(log: seq<HAReq>, expired: nat -> set<string>, n: nat, table: map<string, RespTx>)
    requires n < |log| && Holds(log, expired, n, table)
    ensures forall i: nat :: Reaches(log, expired, i, n) ==>
              log[n].SendCacheModResponse? && log[n].reqId in table - expired(n)
  {
    hide Pending;
    forall i: nat | Reaches(log, expired, i, n)
      ensures log[n].SendCacheModResponse? && log[n].reqId in table - expired(n)
    {
      PendingStep(log, expired, i, n);
    }
  }

  lemma NothingPending(log: seq<HAReq>, expired: nat -> set<string>)
    ensures Holds(log, expired, 0, map[]) && Delivered(log, expired, 0, [], [])
  { }

  lemma AllDelivered(log: seq<HAReq>, expired: nat -> set<string>, at: seq<nat>, sent: seq<(RespTx, bool)>)
    requires Delivered(log, expired, |log|, at, sent)
    ensures |at| == |sent| && forall k, l :: 0 <= k < l < |at| ==> at[k] < at[l]
    ensures forall k :: 0 <= k < |at| ==> DeliveredBy(log, expired, at[k], sent[k])
    ensures forall i: nat, j: nat :: Reaches(log, expired, i, j) ==> j in at
  {
    hide Reaches;
    forall i: nat, j: nat | Reaches(log, expired, i, j) ensures j in at {
      ReachesInside(log, expired, i, j);
    }
  }

  lemma ReachesInside(log: seq<HAReq>, expired: nat -> set<string>, i: nat, j: nat)
    requires Reaches(log, expired, i, j)
    ensures i < j < |log| && log[i].SaveModCallbackTx? && log[j].SendCacheModResponse?
  { }

  class Callbacks {
    // entries may expire at any time
    var ackCache: map<string, RespTx>
    var sent: seq<(RespTx, bool)>

    constructor ()
      ensures ackCache == map[] && sent == []
    {
      ackCache, sent := map[], [];
    }

    /** The callback task over everything it ever receives; `expired(k)` expire before the k-th request is looked at.
        It delivers exactly the responses, given by their positions `at`, to whose id a channel was saved that has not
        expired and whose id has not been used in between: each once, in their order, with their value, to that
        channel. So no channel gets more answers than were asked for on it, even if two requests happen to share
        an id. */
    method Run(rx: seq<HAReq>, expired: nat -> set<string>) returns (ghost at: seq<nat>)
      requires ackCache == map[] && sent == []
      modifies this
      ensures |at| == |sent| && forall k, l :: 0 <= k < l < |at| ==> at[k] < at[l]
      ensures forall k :: 0 <= k < |at| ==> DeliveredBy(rx, expired, at[k], sent[k])
      ensures forall i: nat, j: nat :: Reaches(rx, expired, i, j) ==> j in at
      ensures forall tx :: Deliveries(sent, tx) <= Saves(rx, tx)
      ensures forall k :: 0 <= k < |sent| ==> Justified(rx, sent[k].0, sent[k].1)
    {
      hide TableOk, Justified, Deliveries, Saves, Holds, Delivered, Reaches, DeliveredBy;
      NothingYet();
      NothingPending(rx, expired);
      at := [];
      assert rx[..0] == [];
      var i := 0;
      while i < |rx|
        invariant 0 <= i <= |rx|
        invariant TableOk(rx[..i], ackCache, sent)
        invariant Holds(rx, expired, i, ackCache) && Delivered(rx, expired, i, at, sent)
      {
        assert rx[..i + 1] == rx[..i] + [rx[i]];
        HoldsStep(rx, expired, i, ackCache);
        DeliveredStep(rx, expired, i, ackCache, at, sent);
        ghost var before := ackCache;
        ExpireStep(rx[..i], ackCache, sent, expired(i));
        ackCache := ackCache - expired(i);
        match rx[i] {
          case SaveModCallbackTx(reqId, tx) =>
            SaveStep(rx[..i], ackCache, sent, reqId, tx);
            ackCache := ackCache[reqId := tx];
            assert ackCache == (before - expired(i) - {reqId})[reqId := tx];
          case SendCacheModResponse(reqId, value) =>
            RespondStep(rx[..i], ackCache, sent, reqId, value);
            if reqId in ackCache {
              var tx := ackCache[reqId];
              ackCache := ackCache - {reqId};
              sent := sent + [(tx, value)];
              at := at + [i];
            }
            assert ackCache == before - expired(i) - {reqId};
        }
        i := i + 1;
      }
      assert rx[..|rx|] == rx;
      AllJustified(rx, ackCache, sent);
      AllDelivered(rx, expired, at, sent);
    }
  }
}
