/** What one step of a host puts on the network, envelope by envelope: what the handler owes, at everyone it owes it
    to, and nothing else. */
module Post {
  import opened Types
  import opened QuorumStep
  import opened NodeInvariants
  import opened Duties
  import opened Wire
  import opened Network

  /** Everyone else of the cluster. */
  ghost predicate Other(s: Net, who: Addr, b: Addr) {
    b in s.nodes && b != who
  }

  /** On `act`, the host owes `ev` to `to`. */
  ghost predicate Posts(s: Net, act: Act, to: Addr, ev: Event)
    requires act.who in s.nodes
  {
    var n, e := s.nodes[act.who], act.event;
    match ev
    case LeaderReq(a, t) => Other(s, act.who, to) && OwedToAll(n, e, RpcRequest.LeaderReq(a, t))
    case LeaderAck(a, t) => Other(s, act.who, to) && OwedToAll(n, e, RpcRequest.LeaderAck(a, t))
    case LeaderSwitch(a, t) => Other(s, act.who, to) && OwedToAll(n, e, RpcRequest.LeaderSwitch(a, t))
    case LeaderSwitchDead(a, t) => Other(s, act.who, to) && OwedToAll(n, e, RpcRequest.LeaderSwitchDead(a, t))
    case LeaderSwitchAck(a) => Other(s, act.who, to) && OwedToAll(n, e, RpcRequest.LeaderSwitchAck(a))
    case LeaderReqAck(a, t) =>
      || (Other(s, act.who, to) && OwedToAll(n, e, RpcRequest.LeaderReqAck(a, t)))
      || Owed(n, e, Direct(Channel(to), RpcRequest.LeaderReqAck(a, t)))
      || (e == Event.LeaderReq(a, t) && n.leader.None? && a in n.hosts && to == act.from)
    case LeaderSwitchPriority(a, t) =>
      || (Other(s, act.who, to) && OwedToAll(n, e, RpcRequest.LeaderSwitchPriority(a, t)))
      || (to == act.who && Owed(n, e, ToSelf(ev)))
    case LeaderInfo(a, t, hasQuorum) =>
      && e.GetReport? && to == e.asker && (hasQuorum <==> n.health != Bad)
      && n.leader.Some? && a == LeaderAddr(n) && t == LeaderTs(n)
    case _ => false
  }

  /** An envelope is routed if and only if some output is. */
  lemma {:induction false} RoutedIff(order: seq<Addr>, who: Addr, from: Addr, e: Event, out: seq<Output>, v: Envelope)
    ensures v in RouteAll(order, who, from, e, out) <==> exists o :: o in out && v in Route(order, who, from, e, o)
  {
    hide Route;
    if out == [] {
    } else {
      RoutedIff(order, who, from, e, out[1..], v);
      assert out == [out[0]] + out[1..];
    }
  }

  lemma RoutedIsPosted(s: Net, act: Act, o: Output, v: Envelope)
    requires Formed(s) && act.who in s.nodes && Owed(s.nodes[act.who], act.event, o)
    requires v in Route(s.order, act.who, act.from, act.event, o)
    ensures v.from == act.who && Posts(s, act, v.to, v.event)
  {
    hide Inv, OwedToAll, Adopts, Objects, FindsAwaited, WaitsAnew, LosesQuorum, Fan;
    if o.Broadcast? {
      FanMembers(s.order, act.who, ToEvent(o.req).value, v);
    }
  }

  /** The output that carries it. */
  lemma PostedBy(s: Net, act: Act, to: Addr, ev: Event) returns (o: Output)
    requires Formed(s) && act.who in s.nodes && Posts(s, act, to, ev)
    ensures Owed(s.nodes[act.who], act.event, o)
    ensures Envelope(act.who, to, ev) in Route(s.order, act.who, act.from, act.event, o)
  {
    hide Inv, OwedToAll, Adopts, Objects, FindsAwaited, WaitsAnew, LosesQuorum, Fan;
    var n, e := s.nodes[act.who], act.event;
    FanMembers(s.order, act.who, ev, Envelope(act.who, to, ev));
    match ev
    case LeaderReq(a, t) => o := Broadcast(RpcRequest.LeaderReq(a, t));
    case LeaderAck(a, t) => o := Broadcast(RpcRequest.LeaderAck(a, t));
    case LeaderSwitch(a, t) => o := Broadcast(RpcRequest.LeaderSwitch(a, t));
    case LeaderSwitchDead(a, t) => o := Broadcast(RpcRequest.LeaderSwitchDead(a, t));
    case LeaderSwitchAck(a) => o := Broadcast(RpcRequest.LeaderSwitchAck(a));
    case LeaderReqAck(a, t) =>
      var ack := RpcRequest.LeaderReqAck(a, t);
      o := if Other(s, act.who, to) && OwedToAll(n, e, ack) then Broadcast(ack)
           else if Owed(n, e, Direct(Channel(to), ack)) then Direct(Channel(to), ack) else Answer(true);
    case LeaderSwitchPriority(a, t) =>
      var switch := RpcRequest.LeaderSwitchPriority(a, t);
      o := if Other(s, act.who, to) && OwedToAll(n, e, switch) then Broadcast(switch) else ToSelf(ev);
    case LeaderInfo(_, _, _) => o := Report(QuorumReport(n.health, n.state, n.leader, n.hosts));
    case _ => assert false;
  }

  /** Of every envelope: it is on the network after a step if and only if it was before, or the host that took the
      step owes it. */
  lemma PostedExactly(s: Net, act: Act, v: Envelope)
    requires Formed(s) && Enabled(s, act)
    ensures v in Next(s, act).sent <==> v in s.sent || (v.from == act.who && Posts(s, act, v.to, v.event))
  {
    hide Step, Inv, Mints, Route, Posts, Owed, ValidEvent, RouteAll;
    var n, e := s.nodes[act.who], act.event;
    var out := Step(n, e).out;
    RoutedIff(s.order, act.who, act.from, e, out, v);
    if v in RouteAll(s.order, act.who, act.from, e, out) {
      var o :| o in out && v in Route(s.order, act.who, act.from, e, o);
      SendsExactlyWhatItOwes(n, e, o);
      RoutedIsPosted(s, act, o, v);
    } else if v.from == act.who && Posts(s, act, v.to, v.event) {
      var o := PostedBy(s, act, v.to, v.event);
      SendsExactlyWhatItOwes(n, e, o);
    }
  }

  // ----- candidacies

  lemma UpdateMints(n: Node, server: RpcServer, now: int)
    ensures var e := UpdateServer(server, now);
            Mints(n, e) == if FirstStand(n, e) || TakesOver(n, e) then {(n.cfg.whoami, now)} else {}
  {
    assert n.hosts[server.address := server].Keys == n.hosts.Keys + {server.address};
    assert (n.hosts - {server.address}).Keys == n.hosts.Keys - {server.address};
  }

  lemma TimeoutMints(n: Node, now: int)
    requires Coupled(n.state, n.leader)
    ensures var e := CheckElectionTimeout(now);
            Mints(n, e) == if TakesOverLate(n, e) || StandsAfterSwitch(n, e) then {(n.cfg.whoami, now)} else {}
  { }

  lemma ShutdownMint(n: Node, e: Event)
    requires !e.UpdateServer? && !e.CheckElectionTimeout?
    ensures Mints(n, e)
         == if e.HostShutdown? && n.state == QuorumState.Leader && n.hosts != map[] then {(e.pick, e.now)} else {}
  { }

  /** A pair is created exactly when its host begins a candidacy, or a leader that shuts down votes for it. */
  lemma MintsExactly(n: Node, e: Event, x: Addr, t: int)
    requires Inv(n)
    ensures (x, t) in Mints(n, e)
            <==> || (BeginsCandidacy(n, e) && (e.UpdateServer? || e.CheckElectionTimeout?)
                     && x == n.cfg.whoami && t == e.now)
                 || (e.HostShutdown? && n.state == QuorumState.Leader && n.hosts != map[] && x == e.pick && t == e.now)
  {
    hide Mints, KeepsQuorum, Follows, Coupled, HostsOk, SnapshotFaithful, HealthOf, FollowsThrough;
    if e.UpdateServer? { UpdateMints(n, e.server, e.now); }
    else if e.CheckElectionTimeout? { TimeoutMints(n, e.now); }
    else { ShutdownMint(n, e); }
  }

  lemma CandidacyIsPosted(s: Net, act: Act, b: Addr)
    requires Formed(s) && Enabled(s, act) && BeginsCandidacy(s.nodes[act.who], act.event) && Other(s, act.who, b)
    ensures act.event.UpdateServer? || act.event.CheckElectionTimeout?
    ensures var (x, t) := (act.who, act.event.now);
            && Next(s, act).nodes[x].leader == Some(Local(t)) && Timer(false) in Step(s.nodes[x], act.event).out
            && (|| Envelope(x, b, Event.LeaderReq(x, t)) in Next(s, act).sent
                || Envelope(x, b, Event.LeaderSwitchDead(x, t)) in Next(s, act).sent)
  {
    hide Step, Inv, Mints, RouteAll, BeginsCandidacy, ValidEvent, OwedToAll, Owed;
    var n, e := s.nodes[act.who], act.event;
    CandidacyIsMade(n, e);
    CandidacyIsOwed(n, e);
    PostedExactly(s, act, Envelope(act.who, b, Event.LeaderReq(act.who, e.now)));
    PostedExactly(s, act, Envelope(act.who, b, Event.LeaderSwitchDead(act.who, e.now)));
  }

  lemma CandidacyIsOwed(n: Node, e: Event)
    requires BeginsCandidacy(n, e)
    ensures e.UpdateServer? || e.CheckElectionTimeout?
    ensures || OwedToAll(n, e, RpcRequest.LeaderReq(n.cfg.whoami, e.now))
            || OwedToAll(n, e, RpcRequest.LeaderSwitchDead(n.cfg.whoami, e.now))
  { }

  lemma ShutdownVoteIsPosted(s: Net, act: Act, b: Addr)
    requires Formed(s) && Enabled(s, act) && act.event.HostShutdown? && Other(s, act.who, b)
    requires s.nodes[act.who].state == QuorumState.Leader && s.nodes[act.who].hosts != map[]
    ensures Envelope(act.who, b, Event.LeaderSwitch(act.event.pick, act.event.now)) in Next(s, act).sent
  {
    hide Step, Inv, Mints, RouteAll, ValidEvent, Next;
    PostedExactly(s, act, Envelope(act.who, b, Event.LeaderSwitch(act.event.pick, act.event.now)));
  }

  /** In any run: whenever a pair is created, it is on its way to every other host right then. The host that creates its
      own candidacy is registered with it and will ask again; a leader that shuts down tells whom it votes for. */
  lemma WhatIsMintedIsPosted(order: seq<Addr>, caches: seq<string>, acts: seq<Act>, act: Act, x: Addr, t: int, b: Addr)
    requires |Members(order)| >= 2 && NetRun(Start(order, caches), acts)
    requires Enabled(NetExec(Start(order, caches), acts), act)
    requires (x, t) in Mints(NetExec(Start(order, caches), acts).nodes[act.who], act.event)
    requires b in order && b != act.who
    ensures var s := NetExec(Start(order, caches), acts);
            var s' := Next(s, act);
            if act.event.HostShutdown? then Envelope(act.who, b, Event.LeaderSwitch(x, t)) in s'.sent
            else
              && x == act.who && s'.nodes[x].leader == Some(Local(t))
              && Timer(false) in Step(s.nodes[x], act.event).out
              && (|| Envelope(x, b, Event.LeaderReq(x, t)) in s'.sent
                  || Envelope(x, b, Event.LeaderSwitchDead(x, t)) in s'.sent)
  {
    hide Step, Inv, Mints, Enabled, NetExec, NetRun, Next, OnlyMinted, VotesStand, BeginsCandidacy;
    ClusterKeepsInvariants(order, caches, acts);
    var s := NetExec(Start(order, caches), acts);
    EnabledRuns(s, act);
    MintsExactly(s.nodes[act.who], act.event, x, t);
    if act.event.HostShutdown? {
      ShutdownVoteIsPosted(s, act, b);
    } else {
      CandidacyIsPosted(s, act, b);
    }
  }

  lemma EnabledRuns(s: Net, act: Act)
    requires Enabled(s, act)
    ensures act.who in s.nodes && s.nodes[act.who].status == Running && ValidEvent(s.nodes[act.who], act.event)
  { }
}
