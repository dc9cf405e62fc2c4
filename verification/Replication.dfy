/** How the writes of one leader reach the caches of the other hosts: broadcast to the clients, sent over
    their open streams, applied by the servers. */
module Replication {
  import opened Types
  import opened CacheTask

  // ----- the broadcaster

  /** Everything up to and including the first shutdown. */
  function UntilShutdown(rx: seq<RpcRequest>): seq<RpcRequest> {
    if rx == [] then [] else [rx[0]] + if rx[0].Shutdown? then [] else UntilShutdown(rx[1..])
  }

  lemma {:induction false} UntilShutdownGrows(rx: seq<RpcRequest>, i: nat)
    requires i < |rx| && (forall k :: 0 <= k < i ==> !rx[k].Shutdown?)
    ensures UntilShutdown(rx[..i + 1]) == rx[..i + 1]
    ensures rx[i].Shutdown? ==> UntilShutdown(rx) == rx[..i + 1]
  {
    if i == 0 {
      assert rx[..1][1..] == [];
    } else {
      UntilShutdownGrows(rx[1..], i - 1);
      assert rx[..i + 1][1..] == rx[1..][..i];
      assert rx[..i + 1] == [rx[0]] + rx[1..][..i];
    }
  }

  lemma {:induction false} NoShutdown(rx: seq<RpcRequest>)
    requires forall k :: 0 <= k < |rx| ==> !rx[k].Shutdown?
    ensures UntilShutdown(rx) == rx
  {
    if rx == [] {
    } else {
      NoShutdown(rx[1..]);
    }
  }

  /** That is the whole queue, or its part up to the first shutdown. */
  lemma {:induction false} StopsAtShutdown(rx: seq<RpcRequest>) returns (n: nat)
    ensures n <= |rx| && UntilShutdown(rx) == rx[..n]
    ensures forall k :: 0 <= k < n - 1 ==> !rx[k].Shutdown?
    ensures if n < |rx| then n > 0 && rx[n - 1].Shutdown? else n == |rx|
  {
    if rx == [] {
      n := 0;
    } else if rx[0].Shutdown? {
      n := 1;
    } else {
      var m := StopsAtShutdown(rx[1..]);
      n := m + 1;
      assert rx[..n] == [rx[0]] + rx[1..][..m];
    }
  }

  class Broadcaster {
    // the queue of each client task
    var clientTx: seq<seq<RpcRequest>>

    constructor (clients: nat)
      ensures |clientTx| == clients && forall c :: 0 <= c < clients ==> clientTx[c] == []
    {
      clientTx := seq(clients, _ => []);
    }

    /** Every client gets everything, in the same order, up to the shutdown. */
    method Run(rx: seq<RpcRequest>)
      requires forall c :: 0 <= c < |clientTx| ==> clientTx[c] == []
      modifies this
      ensures |clientTx| == old(|clientTx|)
      ensures forall c :: 0 <= c < |clientTx| ==> clientTx[c] == UntilShutdown(rx)
    {
      var i := 0;
      while i < |rx|
        invariant 0 <= i <= |rx| && |clientTx| == old(|clientTx|)
        invariant forall k :: 0 <= k < i ==> !rx[k].Shutdown?
        invariant forall c :: 0 <= c < |clientTx| ==> clientTx[c] == rx[..i]
      {
        var payload := rx[i];
        for c := 0 to |clientTx|
          invariant |clientTx| == old(|clientTx|)
          invariant forall k :: 0 <= k < c ==> clientTx[k] == rx[..i] + [payload]
          invariant forall k :: c <= k < |clientTx| ==> clientTx[k] == rx[..i]
        {
          clientTx := clientTx[c := clientTx[c] + [payload]];
        }
        assert rx[..i + 1] == rx[..i] + [payload];
        if payload == Shutdown {
          UntilShutdownGrows(rx, i);
          return;
        }
        i := i + 1;
      }
      NoShutdown(rx);
      assert rx[..|rx|] == rx;
    }
  }

  // ----- the server

  /** The request that a put or delete from another host makes to a local cache. */
  function LocalReq(req: RpcRequest): Option<CacheReq> {
    match req
    case Put(_, entry, value, _) => Some(CacheReq.Put(entry, value))
    case Del(_, entry, _) => Some(CacheReq.Del(entry))
    case _ => None
  }

  /** What one cache is asked to do by a sequence of requests from a peer. */
  function Applied(log: seq<RpcRequest>, name: string): seq<CacheReq>
    decreases |log|
  {
    if log == [] then []
    else
      var req := log[|log| - 1];
      Applied(log[..|log| - 1], name)
      + if LocalReq(req).Some? && req.cacheName == name then [LocalReq(req).value] else []
  }

  /** What the server does on a request, in order. */
  datatype Deed = Queued(cacheName: string, req: CacheReq) | Acked(tx: RespTx)

  function DeedsOn(req: RpcRequest, names: set<string>): seq<Deed> {
    if LocalReq(req).Some? && req.cacheName in names then
      [Queued(req.cacheName, LocalReq(req).value)] + if req.respOpt.Some? then [Acked(req.respOpt.value)] else []
    else []
  }

  function Deeds(log: seq<RpcRequest>, names: set<string>): seq<Deed>
    decreases |log|
  {
    if log == [] then [] else Deeds(log[..|log| - 1], names) + DeedsOn(log[|log| - 1], names)
  }

  /** Whatever is acked has been queued right before. */
  lemma {:induction false} AckFollowsItsWrite(log: seq<RpcRequest>, names: set<string>, k: nat) returns (i: nat)
    requires k < |Deeds(log, names)| && Deeds(log, names)[k].Acked?
    ensures i < |log| && LocalReq(log[i]).Some? && log[i].respOpt == Some(Deeds(log, names)[k].tx)
    ensures k > 0 && Deeds(log, names)[k - 1] == Queued(log[i].cacheName, LocalReq(log[i]).value)
    decreases |log|
  {
    var n := |log| - 1;
    if k < |Deeds(log[..n], names)| {
      i := AckFollowsItsWrite(log[..n], names, k);
    } else {
      i := n;
    }
  }

  /** A put or a delete for a cache that the server knows. */
  predicate IsWrite(req: RpcRequest, names: set<string>) {
    (req.Put? || req.Del?) && req.cacheName in names
  }

  function WritesIn(log: seq<RpcRequest>, names: set<string>): nat
    decreases |log|
  {
    if log == [] then 0
    else WritesIn(log[..|log| - 1], names) + if IsWrite(log[|log| - 1], names) then 1 else 0
  }

  function AskingIn(log: seq<RpcRequest>, names: set<string>): nat
    decreases |log|
  {
    if log == [] then 0
    else AskingIn(log[..|log| - 1], names)
         + if IsWrite(log[|log| - 1], names) && log[|log| - 1].respOpt.Some? then 1 else 0
  }

  function QueuedIn(deeds: seq<Deed>): nat {
    if deeds == [] then 0 else (if deeds[0].Queued? then 1 else 0) + QueuedIn(deeds[1..])
  }

  function AckedIn(deeds: seq<Deed>): nat {
    if deeds == [] then 0 else (if deeds[0].Acked? then 1 else 0) + AckedIn(deeds[1..])
  }

  lemma {:induction false} CountsAdd(a: seq<Deed>, b: seq<Deed>)
    ensures QueuedIn(a + b) == QueuedIn(a) + QueuedIn(b) && AckedIn(a + b) == AckedIn(a) + AckedIn(b)
  {
    if a == [] {
      assert [] + b == b;
    } else {
      assert (a + b)[1..] == a[1..] + b;
      CountsAdd(a[1..], b);
    }
  }

  /** Every write of the stream is queued once, and acked once if it asks for that; nothing else is. */
  lemma {:induction false} AsManyAcksAsAskedFor(log: seq<RpcRequest>, names: set<string>)
    ensures QueuedIn(Deeds(log, names)) == WritesIn(log, names)
    ensures AckedIn(Deeds(log, names)) == AskingIn(log, names)
    decreases |log|
  {
    if log == [] {
    } else {
      var n := |log| - 1;
      AsManyAcksAsAskedFor(log[..n], names);
      CountsAdd(Deeds(log[..n], names), DeedsOn(log[n], names));
      DeedsCount(log[n], names);
    }
  }

  lemma DeedsCount(req: RpcRequest, names: set<string>)
    ensures QueuedIn(DeedsOn(req, names)) == if IsWrite(req, names) then 1 else 0
    ensures AckedIn(DeedsOn(req, names)) == if IsWrite(req, names) && req.respOpt.Some? then 1 else 0
  {
    if IsWrite(req, names) {
      var q := Queued(req.cacheName, LocalReq(req).value);
      assert [q][1..] == [];
      if req.respOpt.Some? {
        var a := Acked(req.respOpt.value);
        assert DeedsOn(req, names) == [q, a] && [q, a][1..] == [a] && [a][1..] == [];
        assert QueuedIn([a]) == 0 && AckedIn([a]) == 1;
      } else {
        assert DeedsOn(req, names) == [q];
      }
    }
  }

  lemma DeedsBegin(req: RpcRequest, names: set<string>)
    ensures DeedsOn(req, names) != [] ==> DeedsOn(req, names)[0].Queued?
  { }

  /** The deed at `k` queues what the write asks for, and the next one acks it, exactly if it asks for that; what
      follows otherwise is another write. */
  ghost predicate DoneAt(deeds: seq<Deed>, k: nat, req: RpcRequest)
    requires req.Put? || req.Del?
  {
    && k < |deeds|
    && deeds[k] == Queued(req.cacheName,
                          if req.Put? then CacheReq.Put(req.entry, req.value) else CacheReq.Del(req.entry))
    && match req.respOpt
       case Some(tx) => k + 1 < |deeds| && deeds[k + 1] == Acked(tx)
       case None => k + 1 < |deeds| ==> deeds[k + 1].Queued?
  }

  lemma DoneStays(deeds: seq<Deed>, k: nat, req: RpcRequest, more: seq<Deed>)
    requires (req.Put? || req.Del?) && DoneAt(deeds, k, req) && (more != [] ==> more[0].Queued?)
    ensures DoneAt(deeds + more, k, req)
  { }

  lemma DoneLast(deeds: seq<Deed>, req: RpcRequest, names: set<string>)
    requires (req.Put? || req.Del?) && req.cacheName in names
    ensures DoneAt(deeds + DeedsOn(req, names), |deeds|, req)
  { }

  /** Each write of a session is queued for its cache, after as many as came before it in the stream, and acked at
      once, exactly if it asks for that. */
  lemma {:induction false} WriteIsQueuedAndAcked(log: seq<RpcRequest>, names: set<string>, i: nat) returns (k: nat)
    requires i < |log| && (log[i].Put? || log[i].Del?) && log[i].cacheName in names
    ensures DoneAt(Deeds(log, names), k, log[i])
    ensures k < |Deeds(log, names)| && QueuedIn(Deeds(log, names)[..k]) == WritesIn(log[..i], names)
    decreases |log|
  {
    hide DeedsOn, DoneAt, QueuedIn, WritesIn;
    var n := |log| - 1;
    var before := Deeds(log[..n], names);
    if i < n {
      k := WriteIsQueuedAndAcked(log[..n], names, i);
      DeedsBegin(log[n], names);
      DoneStays(before, k, log[i], DeedsOn(log[n], names));
      assert log[..n][..i] == log[..i] && Deeds(log, names)[..k] == before[..k];
    } else {
      k := |before|;
      DoneLast(before, log[n], names);
      DoneInside(Deeds(log, names), k, log[n]);
      AsManyAcksAsAskedFor(log[..n], names);
      assert Deeds(log, names)[..k] == before;
    }
  }

  lemma DoneInside(deeds: seq<Deed>, k: nat, req: RpcRequest)
    requires (req.Put? || req.Del?) && DoneAt(deeds, k, req)
    ensures k < |deeds|
  { }

  lemma AppliedStep(log: seq<RpcRequest>, req: RpcRequest, name: string)
    ensures Applied(log + [req], name) == Applied(log, name) + Applied([req], name)
  {
    assert (log + [req])[..|log|] == log && [req][..0] == [];
  }

  lemma DeedsStep(log: seq<RpcRequest>, req: RpcRequest, names: set<string>)
    ensures Deeds(log + [req], names) == Deeds(log, names) + DeedsOn(req, names)
  {
    assert (log + [req])[..|log|] == log;
  }

  class Server {
    // the queue of each local cache, and what has been done, acks on the stream included
    var caches: map<string, seq<CacheReq>>
    var trace: seq<Deed>

    constructor (names: set<string>)
      ensures caches.Keys == names && trace == [] && forall n :: n in names ==> caches[n] == []
    {
      caches := map n | n in names :: [];
      trace := [];
    }

    method Queue(cacheName: string, req: CacheReq)
      requires cacheName in caches
      modifies this
      ensures caches == old(caches)[cacheName := old(caches)[cacheName] + [req]]
      ensures trace == old(trace) + [Queued(cacheName, req)]
    {
      caches := caches[cacheName := caches[cacheName] + [req]];
      trace := trace + [Queued(cacheName, req)];
    }

    /** One request from the stream: the cache's queue first, then the answer. */
    method Apply(req: RpcRequest)
      modifies this
      ensures caches.Keys == old(caches).Keys
      ensures forall n :: n in caches ==> caches[n] == old(caches)[n] + Applied([req], n)
      ensures trace == old(trace) + DeedsOn(req, caches.Keys)
    {
      assert [req][..0] == [];
      match req {
        case Put(cacheName, entry, value, resp) =>
          if cacheName in caches {
            Queue(cacheName, CacheReq.Put(entry, value));
            if resp.Some? { trace := trace + [Acked(resp.value)]; }
          }
        case Del(cacheName, entry, resp) =>
          if cacheName in caches {
            Queue(cacheName, CacheReq.Del(entry));
            if resp.Some? { trace := trace + [Acked(resp.value)]; }
          }
        case _ =>
      }
    }

    /** The whole stream of one session: every write is queued and acked at once if it asks for that, and nothing
        else. */
    method Serve(stream: seq<RpcRequest>)
      requires trace == [] && forall n :: n in caches ==> caches[n] == []
      modifies this
      ensures caches.Keys == old(caches).Keys
      ensures forall n :: n in caches ==> caches[n] == Applied(stream, n)
      ensures trace == Deeds(stream, caches.Keys)
      ensures forall i :: 0 <= i < |stream| && IsWrite(stream[i], caches.Keys) ==>
                exists k: nat :: DoneAt(trace, k, stream[i])
      ensures QueuedIn(trace) == WritesIn(stream, caches.Keys) && AckedIn(trace) == AskingIn(stream, caches.Keys)
    {
      var i := 0;
      while i < |stream|
        invariant 0 <= i <= |stream| && caches.Keys == old(caches).Keys
        invariant forall n :: n in caches ==> caches[n] == Applied(stream[..i], n)
        invariant trace == Deeds(stream[..i], caches.Keys)
      {
        hide Applied, Deeds, DeedsOn;
        Apply(stream[i]);
        assert stream[..i + 1] == stream[..i] + [stream[i]];
        forall n { AppliedStep(stream[..i], stream[i], n); }
        DeedsStep(stream[..i], stream[i], caches.Keys);
        i := i + 1;
      }
      assert stream[..|stream|] == stream;
      hide DoneAt;
      AsManyAcksAsAskedFor(stream, caches.Keys);
      forall i | 0 <= i < |stream| && IsWrite(stream[i], caches.Keys)
        ensures exists k: nat :: DoneAt(trace, k, stream[i])
      {
        var k := WriteIsQueuedAndAcked(stream, caches.Keys, i);
        assert DoneAt(trace, k, stream[i]);
      }
    }
  }

  // ----- many followers, any interleaving

  /** One follower: what waits in the queue of the leader's client, what is on the stream, and what its
      server has applied. */
  datatype Session = Session(queue: seq<RpcRequest>, wire: seq<RpcRequest>, applied: seq<RpcRequest>)

  datatype Group = Group(log: seq<RpcRequest>, sessions: seq<Session>)

  datatype Move = Send(req: RpcRequest) | Forward(f: nat) | Apply(f: nat)

  ghost predicate CanMove(g: Group, m: Move) {
    match m
    case Send(_) => true
    case Forward(f) => f < |g.sessions| && g.sessions[f].queue != []
    case Apply(f) => f < |g.sessions| && g.sessions[f].wire != []
  }

  function MoveOn(g: Group, m: Move): Group {
    match m
    case Send(req) =>
      Group(g.log + [req],
            seq(|g.sessions|, i requires 0 <= i < |g.sessions| => g.sessions[i].(queue := g.sessions[i].queue + [req])))
    case Forward(f) =>
      if f < |g.sessions| && g.sessions[f].queue != [] then
        var s := g.sessions[f];
        g.(sessions := g.sessions[f := s.(queue := s.queue[1..], wire := s.wire + [s.queue[0]])])
      else g
    case Apply(f) =>
      if f < |g.sessions| && g.sessions[f].wire != [] then
        var s := g.sessions[f];
        g.(sessions := g.sessions[f := s.(wire := s.wire[1..], applied := s.applied + [s.wire[0]])])
      else g
  }

  function Moves(g: Group, ms: seq<Move>): Group
    decreases |ms|
  {
    if ms == [] then g else Moves(MoveOn(g, ms[0]), ms[1..])
  }

  ghost predicate ValidMoves(g: Group, ms: seq<Move>)
    decreases |ms|
  {
    ms == [] || (CanMove(g, ms[0]) && ValidMoves(MoveOn(g, ms[0]), ms[1..]))
  }

  /** Nothing is lost, doubled or reordered on the way. */
  ghost predicate InStep(g: Group) {
    forall f :: 0 <= f < |g.sessions| ==>
      g.sessions[f].applied + g.sessions[f].wire + g.sessions[f].queue == g.log
  }

  lemma MoveKeepsInStep(g: Group, m: Move)
    requires InStep(g) && CanMove(g, m)
    ensures InStep(MoveOn(g, m)) && |MoveOn(g, m).sessions| == |g.sessions| && g.log <= MoveOn(g, m).log
  {
    var g' := MoveOn(g, m);
    forall f | 0 <= f < |g'.sessions|
      ensures g'.sessions[f].applied + g'.sessions[f].wire + g'.sessions[f].queue == g'.log
    {
      var s, s' := g.sessions[f], g'.sessions[f];
      assert s.applied + s.wire + s.queue == g.log;
      match m
      case Send(req) => assert s'.applied + s'.wire + s'.queue == s.applied + s.wire + s.queue + [req];
      case Forward(h) => if h == f { assert s.queue == [s.queue[0]] + s.queue[1..]; }
      case Apply(h) => if h == f { assert s.wire == [s.wire[0]] + s.wire[1..]; }
    }
  }

  lemma {:induction false} MovesKeepInStep(g: Group, ms: seq<Move>)
    requires InStep(g) && ValidMoves(g, ms)
    ensures InStep(Moves(g, ms)) && |Moves(g, ms).sessions| == |g.sessions|
    decreases |ms|
  {
    if ms == [] {
    } else {
      MoveKeepsInStep(g, ms[0]);
      MovesKeepInStep(MoveOn(g, ms[0]), ms[1..]);
    }
  }

  ghost predicate Drained(s: Session) {
    s.queue == [] && s.wire == []
  }

  /** However many followers, writes and interleavings: what a follower has applied is always a prefix of
      what the leader has broadcast, and once nothing is on the way to two followers, each of their
      caches has been asked exactly the same, and so every lookup gives the same. */
  lemma FollowersAgree(g: Group, ms: seq<Move>, e: nat, f: nat, name: string, entry: string)
    requires InStep(g) && ValidMoves(g, ms) && e < |g.sessions| && f < |g.sessions|
    ensures var h := Moves(g, ms);
            && |h.sessions| == |g.sessions|
            && h.sessions[f].applied <= h.log
            && (Drained(h.sessions[e]) && Drained(h.sessions[f]) ==>
                  && h.sessions[e].applied == h.sessions[f].applied == h.log
                  && Applied(h.sessions[e].applied, name) == Applied(h.log, name)
                  && Applied(h.sessions[f].applied, name) == Applied(h.log, name)
                  && Latest(Applied(h.sessions[e].applied, name), entry) == Latest(Applied(h.log, name), entry))
  {
    MovesKeepInStep(g, ms);
    var h := Moves(g, ms);
    assert forall s :: s in {h.sessions[e], h.sessions[f]} ==> s.applied + s.wire + s.queue == h.log;
    assert h.log[..|h.sessions[f].applied|] == h.sessions[f].applied;
    if Drained(h.sessions[e]) { assert h.sessions[e].applied + [] + [] == h.sessions[e].applied; }
    if Drained(h.sessions[f]) { assert h.sessions[f].applied + [] + [] == h.sessions[f].applied; }
  }

  // ----- what lookups on followers find

  function WithoutGets(rx: seq<CacheReq>): seq<CacheReq>
    decreases |rx|
  {
    if rx == [] then []
    else WithoutGets(rx[..|rx| - 1]) + if rx[|rx| - 1].Get? then [] else [rx[|rx| - 1]]
  }

  lemma {:induction false} GetsChangeNothing(rx: seq<CacheReq>, entry: string)
    ensures Latest(rx, entry) == Latest(WithoutGets(rx), entry)
    decreases |rx|
  {
    if rx == [] {
    } else {
      var k := |rx| - 1;
      GetsChangeNothing(rx[..k], entry);
      var more := WithoutGets(rx);
      if rx[k].Get? {
        assert more == WithoutGets(rx[..k]);
      } else {
        assert more == WithoutGets(rx[..k]) + [rx[k]];
        assert more[..|more| - 1] == WithoutGets(rx[..k]);
      }
    }
  }

  lemma LastAnswer(rx: seq<CacheReq>, entry: string, answers: seq<Answer>, full: bool)
    requires Answered(rx + [CacheReq.Get(entry)], answers, full)
    ensures answers != []
    ensures var value := answers[|answers| - 1].value;
            value == Latest(rx, entry) || (!full && value == None)
  {
    var log := rx + [CacheReq.Get(entry)];
    assert log[..|log| - 1] == rx;
    assert Gets(log) == Gets(rx) + [|rx|];
  }

  /** One follower: its server serves what has reached it, and its cache `name` what the server has queued
      there, with lookups anywhere in between and dropping what it likes; then `entry` is looked up. */
  method LookupOnFollower(names: set<string>, stream: seq<RpcRequest>, name: string, entry: string,
                          rx: seq<CacheReq>, dropped: nat -> set<string>) returns (found: Option<Bytes>)
    requires name in names && WithoutGets(rx) == Applied(stream, name)
    ensures found == Latest(Applied(stream, name), entry) || found == None
    ensures (forall i: nat :: dropped(i) == {}) ==> found == Latest(Applied(stream, name), entry)
  {
    var server := new Server(names);
    server.Serve(stream);
    assert WithoutGets(rx) == server.caches[name];
    var cache := new Cache();
    cache.Serve(rx + [CacheReq.Get(entry)], dropped);
    GetsChangeNothing(rx, entry);
    LastAnswer(rx, entry, cache.answers, false);
    if forall i: nat :: dropped(i) == {} { LastAnswer(rx, entry, cache.answers, true); }
    found := cache.answers[|cache.answers| - 1].value;
  }

  /** Two followers that have been sent everything give the same answer to a lookup, or one of them has dropped
      the entry; if neither drops anything, both answer with the leader's latest write. */
  method DrainedFollowersAnswerAlike(g: Group, ms: seq<Move>, e: nat, f: nat, names: set<string>, name: string,
                                     entry: string, rxE: seq<CacheReq>, rxF: seq<CacheReq>,
                                     droppedE: nat -> set<string>, droppedF: nat -> set<string>)
      returns (a: Option<Bytes>, b: Option<Bytes>)
    requires InStep(g) && ValidMoves(g, ms) && e < |g.sessions| && f < |g.sessions| && name in names
    requires var h := Moves(g, ms);
             && |h.sessions| == |g.sessions| && Drained(h.sessions[e]) && Drained(h.sessions[f])
             && WithoutGets(rxE) == Applied(h.sessions[e].applied, name)
             && WithoutGets(rxF) == Applied(h.sessions[f].applied, name)
    ensures a == b || a == None || b == None
    ensures (forall i: nat :: droppedE(i) == droppedF(i) == {}) ==>
              a == b == Latest(Applied(Moves(g, ms).log, name), entry)
  {
    FollowersAgree(g, ms, e, f, name, entry);
    var h := Moves(g, ms);
    a := LookupOnFollower(names, h.sessions[e].applied, name, entry, rxE, droppedE);
    b := LookupOnFollower(names, h.sessions[f].applied, name, entry, rxF, droppedF);
  }

  // ----- the leader's own caches

  /** The leader's own queues: what it has broadcast, what it has queued for its own caches, and the
      writes in between, which have been broadcast but not queued yet. */
  datatype Own = Own(remote: seq<RpcRequest>, local: seq<RpcRequest>, open: seq<RpcRequest>)

  datatype Write = Begin(req: RpcRequest) | Finish(k: nat)

  function WriteOn(o: Own, w: Write): Own {
    match w
    case Begin(req) => Own(o.remote + [req], o.local, o.open + [req])
    case Finish(k) =>
      if k < |o.open| then Own(o.remote, o.local + [o.open[k]], o.open[..k] + o.open[k + 1..]) else o
  }

  function Writes(o: Own, ws: seq<Write>): Own
    decreases |ws|
  {
    if ws == [] then o else Writes(WriteOn(o, ws[0]), ws[1..])
  }

  /** Every write that finishes is the one that has waited longest. */
  ghost predicate OldestFirst(o: Own, ws: seq<Write>)
    decreases |ws|
  {
    ws == [] || ((ws[0].Finish? && ws[0].k < |o.open| ==> ws[0].k == 0) && OldestFirst(WriteOn(o, ws[0]), ws[1..]))
  }

  lemma {:induction false} LogsOnlyGrow(o: Own, ws: seq<Write>)
    ensures o.local <= Writes(o, ws).local && o.remote <= Writes(o, ws).remote
    decreases |ws|
  {
    if ws == [] {
    } else {
      LogsOnlyGrow(WriteOn(o, ws[0]), ws[1..]);
    }
  }

  /** A write that begins, or the oldest one that finishes, keeps the logs apart by the open writes. */
  lemma StaysInOrder(o: Own, w: Write)
    requires o.local + o.open == o.remote && (w.Finish? && w.k < |o.open| ==> w.k == 0)
    ensures var p := WriteOn(o, w); p.local + p.open == p.remote
  {
    match w
    case Begin(req) => assert o.local + (o.open + [req]) == (o.local + o.open) + [req];
    case Finish(k) =>
      if k < |o.open| {
        assert o.open[..0] + o.open[1..] == o.open[1..];
        assert o.local + ([o.open[0]] + o.open[1..]) == (o.local + [o.open[0]]) + o.open[1..];
        assert o.open == [o.open[0]] + o.open[1..];
      }
  }

  lemma {:induction false} OldestFirstAgrees(o: Own, ws: seq<Write>)
    requires o.local + o.open == o.remote && OldestFirst(o, ws)
    ensures Writes(o, ws).local + Writes(o, ws).open == Writes(o, ws).remote
    decreases |ws|
  {
    hide WriteOn;
    if ws == [] {
    } else {
      StaysInOrder(o, ws[0]);
      OldestFirstAgrees(WriteOn(o, ws[0]), ws[1..]);
    }
  }

  /** A write that overtakes another one is at the other one's place ever after. */
  lemma OvertakesForGood(o: Own, k: nat, q: Own)
    requires o.local + o.open == o.remote && 0 < k < |o.open|
    requires o.local + [o.open[k]] <= q.local && o.remote <= q.remote && Distinct(q.remote)
    ensures q.local != q.remote
  {
    var at := |o.local|;
    assert q.local[at] == (o.local + [o.open[k]])[at] == o.open[k];
    assert q.remote[at + k] == o.remote[at + k] == o.open[k];
    assert q.remote[at] != q.remote[at + k];
  }

  /** Once a write has overtaken another one, the two logs differ for good. */
  lemma {:induction false} OvertakingDiffers(o: Own, ws: seq<Write>)
    requires o.local + o.open == o.remote && !OldestFirst(o, ws) && Distinct(Writes(o, ws).remote)
    ensures Writes(o, ws).local != Writes(o, ws).remote
    decreases |ws|
  {
    hide Distinct;
    var p := WriteOn(o, ws[0]);
    if ws[0].Finish? && 0 < ws[0].k < |o.open| {
      LogsOnlyGrow(p, ws[1..]);
      OvertakesForGood(o, ws[0].k, Writes(p, ws[1..]));
    } else {
      StaysInOrder(o, ws[0]);
      hide WriteOn;
      OvertakingDiffers(p, ws[1..]);
    }
  }

  /** When all writes have finished, the leader's own caches have been asked the same as all others, in the
      same order, if and only if no write has overtaken another one; for writes that can be told apart. */
  lemma LeaderAgreesIff(o: Own, ws: seq<Write>)
    requires o.local + o.open == o.remote && Writes(o, ws).open == [] && Distinct(Writes(o, ws).remote)
    ensures Writes(o, ws).local == Writes(o, ws).remote <==> OldestFirst(o, ws)
  {
    if OldestFirst(o, ws) {
      OldestFirstAgrees(o, ws);
      assert Writes(o, ws).local + [] == Writes(o, ws).local;
    } else {
      OvertakingDiffers(o, ws);
    }
  }

  /** No write begins before the one before it has finished. */
  ghost predicate OneAtATime(o: Own, ws: seq<Write>)
    decreases |ws|
  {
    ws == [] || ((ws[0].Begin? ==> o.open == []) && OneAtATime(WriteOn(o, ws[0]), ws[1..]))
  }

  lemma OneOpen(o: Own, w: Write)
    requires |o.open| <= 1 && (w.Begin? ==> o.open == [])
    ensures |WriteOn(o, w).open| <= 1
  { }

  lemma {:induction false} OneAtATimeIsOldestFirst(o: Own, ws: seq<Write>)
    requires |o.open| <= 1 && OneAtATime(o, ws)
    ensures OldestFirst(o, ws)
    decreases |ws|
  {
    if ws == [] {
    } else {
      OneOpen(o, ws[0]);
      hide WriteOn;
      OneAtATimeIsOldestFirst(WriteOn(o, ws[0]), ws[1..]);
    }
  }

  /** In particular, writes that do not overlap leave the leader's own caches with the log that it has
      broadcast, even if they are equal. */
  lemma LeaderAgrees(o: Own, ws: seq<Write>)
    requires o.local + o.open == o.remote && |o.open| <= 1 && OneAtATime(o, ws)
    ensures var p := Writes(o, ws);
            && p.local + p.open == p.remote
            && (p.open == [] ==> forall name :: Applied(p.local, name) == Applied(p.remote, name))
  {
    OneAtATimeIsOldestFirst(o, ws);
    OldestFirstAgrees(o, ws);
    var p := Writes(o, ws);
    if p.open == [] { assert p.local + [] == p.local; }
  }

  // ----- two writes at once

  /** What a put or delete leaves of its entry. */
  function Effect(w: RpcRequest): Option<Bytes> {
    if w.Put? then Some(w.value) else None
  }

  ghost predicate Modifies(w: RpcRequest, name: string, entry: string) {
    (w.Put? || w.Del?) && w.cacheName == name && w.entry == entry
  }

  lemma LatestAfter(log: seq<RpcRequest>, w: RpcRequest, name: string, entry: string)
    requires w.Put? || w.Del?
    ensures Latest(Applied(log + [w], name), entry)
         == if Modifies(w, name, entry) then Effect(w) else Latest(Applied(log, name), entry)
  {
    hide Applied, Latest;
    AppliedStep(log, w, name);
    AppliedOne(w, name);
    var before := Applied(log, name);
    if w.cacheName == name {
      LatestPush(before, LocalReq(w).value, entry);
    } else {
      assert before + [] == before;
    }
  }

  lemma AppliedOne(w: RpcRequest, name: string)
    requires w.Put? || w.Del?
    ensures Applied([w], name) == if w.cacheName == name then [LocalReq(w).value] else []
  {
    assert [w][..0] == [];
  }

  lemma LatestPush(log: seq<CacheReq>, r: CacheReq, entry: string)
    requires r.Put? || r.Del?
    ensures Latest(log + [r], entry)
         == if r.entry != entry then Latest(log, entry) else if r.Put? then Some(r.value) else None
  {
    assert (log + [r])[..|log|] == log;
  }

  /** The leader's own caches after two writes that were queued there in the reverse order. */
  function Reversed(log: seq<RpcRequest>, w1: RpcRequest, w2: RpcRequest): Own {
    Writes(Own(log, log, []), [Begin(w1), Begin(w2), Finish(1), Finish(0)])
  }

  lemma ReversedLogs(log: seq<RpcRequest>, w1: RpcRequest, w2: RpcRequest)
    ensures Reversed(log, w1, w2) == Own(log + [w1] + [w2], log + [w2] + [w1], [])
  {
    var ws := [Begin(w1), Begin(w2), Finish(1), Finish(0)];
    var o := Own(log, log, []);
    var o1 := WriteOn(o, ws[0]);
    var o2 := WriteOn(o1, ws[1]);
    var o3 := WriteOn(o2, ws[2]);
    var o4 := WriteOn(o3, ws[3]);
    FourWrites(o, ws);
    assert o2.open == [w1, w2] && o3.open == [w1] && o4.open == [];
  }

  lemma FourWrites(o: Own, ws: seq<Write>)
    requires |ws| == 4
    ensures Writes(o, ws) == WriteOn(WriteOn(WriteOn(WriteOn(o, ws[0]), ws[1]), ws[2]), ws[3])
  {
    hide WriteOn;
    assert ws[1..][1..] == ws[2..] && ws[2..][1..] == ws[3..] && ws[3..][1..] == [];
    var o1 := WriteOn(o, ws[0]);
    assert Writes(o, ws) == Writes(o1, ws[1..]);
    var o2 := WriteOn(o1, ws[1]);
    assert Writes(o1, ws[1..]) == Writes(o2, ws[2..]);
    var o3 := WriteOn(o2, ws[2]);
    assert Writes(o2, ws[2..]) == Writes(o3, ws[3..]);
    assert Writes(o3, ws[3..]) == WriteOn(o3, ws[3]);
  }

  /** Two writes that overlap may be queued at the leader against the order of the broadcast. Then every lookup
      still finds the same there as everywhere else, if and only if they do not leave one entry of one cache
      with different values. */
  lemma OverlapAgreesIff(log: seq<RpcRequest>, w1: RpcRequest, w2: RpcRequest)
    requires (w1.Put? || w1.Del?) && (w2.Put? || w2.Del?)
    ensures var p := Reversed(log, w1, w2);
            (forall name, entry :: Latest(Applied(p.local, name), entry) == Latest(Applied(p.remote, name), entry))
            <==> !(w1.cacheName == w2.cacheName && w1.entry == w2.entry && Effect(w1) != Effect(w2))
  {
    hide Applied, Latest, Writes;
    ReversedLogs(log, w1, w2);
    forall name, entry
      ensures Latest(Applied(log + [w2] + [w1], name), entry)
           == if Modifies(w1, name, entry) then Effect(w1) else if Modifies(w2, name, entry) then Effect(w2)
              else Latest(Applied(log, name), entry)
      ensures Latest(Applied(log + [w1] + [w2], name), entry)
           == if Modifies(w2, name, entry) then Effect(w2) else if Modifies(w1, name, entry) then Effect(w1)
              else Latest(Applied(log, name), entry)
    {
      LatestAfter(log + [w2], w1, name, entry);
      LatestAfter(log, w2, name, entry);
      LatestAfter(log + [w1], w2, name, entry);
      LatestAfter(log, w1, name, entry);
    }
    assert Modifies(w1, w1.cacheName, w1.entry) && Modifies(w2, w2.cacheName, w2.entry);
    if w1.cacheName == w2.cacheName && w1.entry == w2.entry && Effect(w1) != Effect(w2) {
      assert Latest(Applied(log + [w2] + [w1], w1.cacheName), w1.entry)
          != Latest(Applied(log + [w1] + [w2], w1.cacheName), w1.entry);
    }
  }

  /** For instance, two puts of one entry leave the leader with the first value and everybody else with the
      second. */
  lemma OverlapDiverges(log: seq<RpcRequest>, name: string, entry: string, v1: Bytes, v2: Bytes)
    requires v1 != v2
    ensures var w1, w2 := RpcRequest.Put(name, entry, v1, None), RpcRequest.Put(name, entry, v2, None);
            var p := Reversed(log, w1, w2);
            && p.open == []
            && Latest(Applied(p.local, name), entry) == Some(v1)
            && Latest(Applied(p.remote, name), entry) == Some(v2)
  {
    hide Applied, Latest, Writes;
    var w1, w2 := RpcRequest.Put(name, entry, v1, None), RpcRequest.Put(name, entry, v2, None);
    ReversedLogs(log, w1, w2);
    LatestAfter(log + [w2], w1, name, entry);
    LatestAfter(log + [w1], w2, name, entry);
  }
}
