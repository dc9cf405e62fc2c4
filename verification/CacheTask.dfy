/** One cache: a task that serves its queue in order, over a store that may drop entries at any time. */
module CacheTask {
  import opened Types

  /** What a lookup of `entry` after all of `log` should find: the last put that no delete of the entry
      and no reset has followed. */
  function Latest(log: seq<CacheReq>, entry: string): Option<Bytes>
    decreases |log|
  {
    if log == [] then None
    else
      match log[|log| - 1]
      case Put(e, v) => if e == entry then Some(v) else Latest(log[..|log| - 1], entry)
      case Del(e) => if e == entry then None else Latest(log[..|log| - 1], entry)
      case Reset => None
      case Get(_) => Latest(log[..|log| - 1], entry)
  }

  /** The answer to the request at `at`. */
  datatype Answer = Answer(at: nat, value: Option<Bytes>)

  function Gets(log: seq<CacheReq>): seq<nat>
    decreases |log|
  {
    if log == [] then []
    else Gets(log[..|log| - 1]) + if log[|log| - 1].Get? then [|log| - 1] else []
  }

  /** Every entry of the store is up to date. */
  ghost predicate Fresh(store: map<string, Bytes>, log: seq<CacheReq>) {
    forall e :: e in store ==> Latest(log, e) == Some(store[e])
  }

  /** Nothing that ought to be in the store is missing. */
  ghost predicate Full(store: map<string, Bytes>, log: seq<CacheReq>) {
    forall e :: Latest(log, e).Some? ==> e in store
  }

  /** Every get is answered, in order, with nothing or with the latest value; `full` if never with
      nothing where there is a value. */
  ghost predicate Answered(log: seq<CacheReq>, answers: seq<Answer>, full: bool) {
    && |answers| == |Gets(log)|
    && forall i :: 0 <= i < |answers| ==>
         && answers[i].at == Gets(log)[i] < |log|
         && var g := log[answers[i].at];
         && g.Get?
         && var latest := Latest(log[..answers[i].at], g.entry);
            answers[i].value == latest || (!full && answers[i].value == None)
  }

  lemma LatestStep(log: seq<CacheReq>, i: nat, entry: string)
    requires i < |log|
    ensures log[..i + 1][..i] == log[..i]
    ensures Latest(log[..i + 1], entry) ==
            match log[i]
            case Put(e, v) => if e == entry then Some(v) else Latest(log[..i], entry)
            case Del(e) => if e == entry then None else Latest(log[..i], entry)
            case Reset => None
            case Get(_) => Latest(log[..i], entry)
  {
    assert log[..i + 1][..i] == log[..i];
  }

  lemma AnsweredStep(log: seq<CacheReq>, i: nat, answers: seq<Answer>, next: seq<Answer>, full: bool)
    requires i < |log| && Answered(log[..i], answers, full)
    requires if log[i].Get? then
               exists v :: next == answers + [Answer(i, v)]
                           && (v == Latest(log[..i], log[i].entry) || (!full && v == None))
             else next == answers
    ensures Answered(log[..i + 1], next, full)
  {
    assert log[..i + 1][..i] == log[..i];
    forall k: nat | k <= i ensures log[..i + 1][..k] == log[..i][..k] == log[..k] { }
  }

  class Cache {
    var store: map<string, Bytes>
    var answers: seq<Answer>

    constructor ()
      ensures store == map[] && answers == []
    {
      store, answers := map[], [];
    }

    /** `cache_recv` over everything its queue will ever deliver. `dropped(i)` are the entries that the
        cache evicts or expires around the i-th request. */
    method Serve(rx: seq<CacheReq>, dropped: nat -> set<string>)
      requires store == map[] && answers == []
      modifies this
      ensures Answered(rx, answers, false)
      ensures (forall i: nat :: dropped(i) == {}) ==> Answered(rx, answers, true)
      ensures Fresh(store, rx)
    {
      ghost var keepsAll := forall i: nat :: dropped(i) == {};
      var i := 0;
      while i < |rx|
        invariant 0 <= i <= |rx|
        invariant Fresh(store, rx[..i]) && (keepsAll ==> Full(store, rx[..i]))
        invariant Answered(rx[..i], answers, keepsAll)
      {
        store := store - dropped(i);
        ghost var before := answers;
        forall e { LatestStep(rx, i, e); }
        match rx[i] {
          case Get(entry) =>
            var value := if entry in store then Some(store[entry]) else None;
            answers := answers + [Answer(i, value)];
            assert answers == before + [Answer(i, value)];
          case Put(entry, value) =>
            store := store[entry := value];
          case Del(entry) =>
            store := store - {entry};
          case Reset =>
            store := map[];
        }
        AnsweredStep(rx, i, before, answers, keepsAll);
        i := i + 1;
      }
      assert rx[..|rx|] == rx;
    }
  }

  /** After a reset nothing that was queued before it can be found any more. */
  lemma {:induction false} ResetForgets(before: seq<CacheReq>, after: seq<CacheReq>, entry: string)
    ensures Latest(before + [Reset] + after, entry) == Latest(after, entry)
    decreases |after|
  {
    var log := before + [Reset] + after;
    if after == [] {
      assert log == before + [Reset];
    } else {
      assert log[..|log| - 1] == before + [Reset] + after[..|after| - 1];
      ResetForgets(before, after[..|after| - 1], entry);
    }
  }

  /** A value that a lookup finds was put by a request of that log. */
  lemma {:induction false} LatestWasPut(log: seq<CacheReq>, entry: string) returns (k: nat)
    requires Latest(log, entry).Some?
    ensures k < |log| && log[k] == CacheReq.Put(entry, Latest(log, entry).value)
    ensures forall j :: k < j < |log| ==> !Changes(log[j], entry)
    decreases |log|
  {
    k := |log| - 1;
    if !(log[k].Put? && log[k].entry == entry) {
      k := LatestWasPut(log[..k], entry);
    }
  }

  /** The request decides what is found under `entry` from then on. */
  predicate Changes(req: CacheReq, entry: string) {
    req == Reset || ((req.Put? || req.Del?) && req.entry == entry)
  }

  lemma {:induction false} UnchangedSince(log: seq<CacheReq>, k: nat, entry: string)
    requires k < |log| && forall j :: k < j < |log| ==> !Changes(log[j], entry)
    ensures Latest(log, entry) == Latest(log[..k + 1], entry)
    decreases |log|
  {
    var n := |log| - 1;
    if k == n {
      assert log[..k + 1] == log;
    } else {
      UnchangedSince(log[..n], k, entry);
      assert log[..n][..k + 1] == log[..k + 1];
    }
  }

  /** A lookup should find `v` exactly if the last request that is about the entry, or a reset, has put `v`. */
  lemma LatestExactly(log: seq<CacheReq>, entry: string, v: Bytes)
    ensures Latest(log, entry) == Some(v)
            <==> exists k: nat :: k < |log| && log[k] == CacheReq.Put(entry, v)
                                  && forall j :: k < j < |log| ==> !Changes(log[j], entry)
  {
    if Latest(log, entry) == Some(v) {
      var k := LatestWasPut(log, entry);
    }
    if k: nat :| k < |log| && log[k] == CacheReq.Put(entry, v)
                 && forall j :: k < j < |log| ==> !Changes(log[j], entry)
    {
      UnchangedSince(log, k, entry);
      LatestStep(log, k, entry);
    }
  }

  /** Whatever a cache answers after it has served a reset was put after that reset. */
  lemma NoAnswerFromBeforeReset(log: seq<CacheReq>, answers: seq<Answer>, r: nat, i: nat) returns (k: nat)
    requires Answered(log, answers, false) && r < |log| && log[r] == Reset
    requires i < |answers| && answers[i].at > r && answers[i].value.Some?
    ensures r < k < answers[i].at && log[k] == CacheReq.Put(log[answers[i].at].entry, answers[i].value.value)
  {
    var at := answers[i].at;
    k := LatestWasPut(log[..at], log[at].entry);
    assert k != r;
    assert log[..at][r] == Reset;
  }
}
