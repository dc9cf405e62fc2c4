/** The quorum handler in its own form: an object that updates its fields in place, event by event.
    Each method is proved against the arm of the same name in QuorumStep.dfy. */
module QuorumHandler {
  import opened Types
  import opened QuorumStep

  class Handler {
    const whoami: Addr
    const clientsCount: nat
    const quorum: nat
    const caches: seq<string>
    ghost const peers: set<Addr>

    var hosts: map<Addr, RpcServer>
    var health: Health
    var state: QuorumState
    var healthState: HealthState
    var leader: Option<RegisteredLeader>
    var ackCount: nat
    var watch: HealthState
    var status: Status
    // everything sent so far, on whichever channel, in order
    var sent: seq<Output>

    ghost predicate Valid() {
      clientsCount == |peers| && quorum == (clientsCount + 1) / 2
    }

    ghost function Abs(): Node
      reads this
    {
      Node(Config(whoami, peers, caches), hosts, health, state, leader, ackCount, healthState, watch, status)
    }

    /** The fields and the sent messages are those that the arm `a` prescribes. */
    twostate predicate Did(a: Arm)
      reads this
    {
      Abs() == a.node && sent == old(sent) + a.out
    }

    constructor (whoami: Addr, ghost peers: set<Addr>, clientsCount: nat, caches: seq<string>)
      requires clientsCount == |peers|
      ensures Valid() && Abs() == Init(Config(whoami, peers, caches)) && sent == []
    {
      this.whoami, this.peers, this.clientsCount, this.caches := whoami, peers, clientsCount, caches;
      quorum := (clientsCount + 1) / 2;
      hosts := map[];
      health := Bad;
      state := Undefined;
      healthState := HealthState(Bad, Undefined, None, 0);
      leader := None;
      ackCount := 0;
      watch := HealthState(Bad, Undefined, None, 0);
      status := Running;
      sent := [];
    }

    method Send(o: Output)
      modifies this`sent
      ensures sent == old(sent) + [o]
    {
      sent := sent + [o];
    }

    /** `check_leadership_conflict` */
    method CheckLeadershipConflict(tsRemote: int, addrRemote: Addr) returns (conflict: bool)
      modifies this`sent
      ensures sent == old(sent) + ConflictOutput(Abs(), addrRemote, tsRemote)
      ensures conflict <==> leader.Some?
    {
      if leader == None {
        return false;
      }
      var ts, addr;
      match leader.value {
        case Local(t) => ts, addr := t, whoami;
        case Remote(srv) => ts, addr := srv.electionTs, srv.address;
      }
      if tsRemote < ts {
        Send(ToSelf(Event.LeaderSwitchPriority(addrRemote, tsRemote)));
        Send(Broadcast(RpcRequest.LeaderSwitchPriority(addrRemote, tsRemote)));
      } else {
        Send(Broadcast(RpcRequest.LeaderSwitchPriority(addr, ts)));
      }
      return true;
    }

    // ----- UpdateServer

    method ConnectAwaited(server: RpcServer) returns (go: bool)
      modifies this
      ensures Did(TakeAwaited(old(Abs()), server)) && go == TakeAwaited(old(Abs()), server).publish
    {
      if state == LeaderTxAwait(server.address) {
        if leader == None {
          status := Panicked;
          return false;
        }
        var electionTs;
        match leader.value {
          case Local(ts) => electionTs := ts;
          case Remote(r) => electionTs := r.electionTs;
        }
        if server.tx.Some? {
          Send(Direct(server.tx.value, RpcRequest.LeaderReqAck(server.address, electionTs)));
        }
        leader := Some(Remote(RpcServer(server.address, Alive, server.tx, electionTs)));
        state := Follower;
        healthState := healthState.(state := Follower, txLeader := server.tx);
      }
      return true;
    }

    method ConnectRetried(server: RpcServer) returns (go: bool)
      modifies this
      ensures Did(TakeRetried(old(Abs()), server)) && go == TakeRetried(old(Abs()), server).publish
    {
      if state == Retry && leader.Some? {
        match leader.value {
          case Local(_) =>
            status := Panicked;
            return false;
          case Remote(l) =>
            if l.address == server.address {
              leader := Some(Remote(RpcServer(server.address, Alive, server.tx, l.electionTs)));
              state := Follower;
              healthState := healthState.(state := Follower, txLeader := server.tx);
              Send(Broadcast(RpcRequest.LeaderReqAck(l.address, l.electionTs)));
            }
        }
      }
      return true;
    }

    method RequestLeadership(now: int)
      modifies this
      ensures Abs() == Show(old(Abs()).(leader := Some(Local(now)), acks := 0), LeadershipRequested(now), None)
      ensures sent == old(sent) + [Broadcast(RpcRequest.LeaderReq(whoami, now)), Timer(false)]
    {
      leader := Some(Local(now));
      state := LeadershipRequested(now);
      healthState := healthState.(state := LeadershipRequested(now), txLeader := None);
      ackCount := 0;
      Send(Broadcast(RpcRequest.LeaderReq(whoami, now)));
      Send(Timer(false));
    }

    method CountHost(server: RpcServer, now: int)
      requires Valid()
      modifies this
      ensures Did(AddHost(old(Abs()), server, now))
    {
      hosts := hosts[server.address := server];
      var count := |hosts|;
      if count >= quorum {
        if health != Good && leader == None {
          RequestLeadership(now);
        }
        health := if count == clientsCount then Good else Degraded;
        healthState := healthState.(health := health);
      }
    }

    method HostAlive(server: RpcServer, now: int) returns (go: bool)
      requires Valid()
      modifies this
      ensures Did(OnAlive(old(Abs()), server, now)) && go == OnAlive(old(Abs()), server, now).publish
    {
      go := ConnectAwaited(server);
      if go {
        go := ConnectRetried(server);
        if go {
          CountHost(server, now);
        }
      }
    }

    method ResetCaches()
      modifies this`sent
      ensures sent == old(sent) + Resets(caches)
    {
      for i := 0 to |caches|
        invariant sent == old(sent) + Resets(caches)[..i]
      {
        Send(ResetCache(caches[i]));
      }
    }

    method LoseHost(server: RpcServer, now: int) returns (go: bool)
      requires Valid() && |hosts| >= quorum
      modifies this
      ensures Did(AfterLossWithQuorum(old(Abs()), server, now))
      ensures go == AfterLossWithQuorum(old(Abs()), server, now).publish
    {
      var leaderDied := false;
      if leader.Some? && leader.value.Remote? && leader.value.server.address == server.address {
        ackCount := 0;
        leaderDied := true;
      }
      health := Degraded;
      healthState := healthState.(health := Degraded);
      if leaderDied {
        if state == LeaderDead {
          return false;
        }
        Send(Broadcast(RpcRequest.LeaderSwitchDead(whoami, now)));
        leader := Some(Local(now));
        state := LeadershipRequested(now);
        healthState := healthState.(state := LeadershipRequested(now), txLeader := None);
        Send(Timer(false));
      }
      return true;
    }

    method LoseQuorum()
      modifies this
      ensures Did(AfterLossOfQuorum(old(Abs())))
    {
      match health {
        case Bad =>
        case _ =>
          leader := None;
          health := Bad;
          state := Undefined;
          healthState := healthState.(health := Bad, state := Undefined, txLeader := None);
          ackCount := 0;
          ResetCaches();
      }
    }

    method HostDead(server: RpcServer, now: int) returns (go: bool)
      requires Valid()
      modifies this
      ensures Did(OnDead(old(Abs()), server, now)) && go == OnDead(old(Abs()), server, now).publish
    {
      hide AfterLossWithQuorum, Resets;
      hosts := hosts - {server.address};
      if |hosts| >= quorum {
        go := LoseHost(server, now);
      } else {
        LoseQuorum();
        go := true;
      }
    }

    method HandleUpdateServer(server: RpcServer, now: int) returns (publish: bool)
      requires Valid()
      modifies this
      ensures Did(OnUpdateServer(old(Abs()), server, now))
      ensures publish == OnUpdateServer(old(Abs()), server, now).publish
    {
      hide OnAlive, OnDead;
      match server.liveness {
        case Alive => publish := HostAlive(server, now);
        case Dead => publish := HostDead(server, now);
      }
      if publish {
        healthState := healthState.(connectedHosts := |hosts|);
      }
    }

    // ----- messages from other hosts

    method HandleLeaderInfo(addr: Addr, electionTs: int, hasQuorum: bool)
      modifies this
      ensures Did(OnLeaderInfo(old(Abs()), addr, electionTs, hasQuorum))
      ensures OnLeaderInfo(old(Abs()), addr, electionTs, hasQuorum).publish
    {
      var _ := CheckLeadershipConflict(electionTs, addr);
      if (hasQuorum && (state == Undefined || state == Retry) && addr != whoami) || leader == None {
        var tx := LeaderTx(hosts, addr);
        match tx {
          case None =>
            leader := Some(Remote(RpcServer(addr, Alive, None, electionTs)));
            state := LeaderTxAwait(addr);
            healthState := healthState.(state := LeaderTxAwait(addr));
          case Some(t) =>
            Send(Direct(t, RpcRequest.LeaderReqAck(addr, electionTs)));
            leader := Some(Remote(RpcServer(addr, Alive, Some(t), electionTs)));
            state := Follower;
            healthState := healthState.(state := Follower, txLeader := Some(t));
        }
      }
    }

    method HandleLeaderReq(addr: Addr, electionTs: int)
      modifies this
      ensures Did(OnLeaderReq(old(Abs()), addr, electionTs))
      ensures OnLeaderReq(old(Abs()), addr, electionTs).publish
    {
      var accepted := false;
      var isConflict := CheckLeadershipConflict(electionTs, addr);
      if !isConflict {
        var txLeader := LeaderTx(hosts, addr);
        leader := Some(Remote(RpcServer(addr, Alive, txLeader, electionTs)));
        if txLeader.Some? {
          healthState := healthState.(txLeader := txLeader);
          accepted := true;
          Send(Timer(false));
        } else {
          state := Retry;
          healthState := healthState.(state := Retry, txLeader := None);
          Send(Timer(true));
        }
      }
      Send(Answer(accepted));
    }

    method HandleLeaderReqAck(addr: Addr, electionTs: int)
      requires Valid()
      modifies this
      ensures Did(OnLeaderReqAck(old(Abs()), addr, electionTs))
      ensures OnLeaderReqAck(old(Abs()), addr, electionTs).publish
    {
      match leader {
        case None =>
          var txLeader := LeaderTx(hosts, addr);
          leader := Some(Remote(RpcServer(addr, Alive, txLeader, electionTs)));
          state := LeaderTxAwait(addr);
          healthState := healthState.(state := LeaderTxAwait(addr), txLeader := txLeader);
          Send(Broadcast(RpcRequest.LeaderReqAck(addr, electionTs)));
          Send(Timer(false));
        case Some(lead) =>
          var _ := CheckLeadershipConflict(electionTs, addr);
          match lead {
            case Local(ts) =>
              if addr == whoami {
                ackCount := ackCount + 1;
                if ackCount >= quorum {
                  state := QuorumState.Leader;
                  healthState := healthState.(state := QuorumState.Leader, txLeader := None);
                  Send(Broadcast(RpcRequest.LeaderAck(whoami, ts)));
                }
              }
            case Remote(_) =>
          }
      }
    }

    method HandleLeaderAck(addr: Addr, electionTs: int)
      modifies this
      ensures Did(OnLeaderAck(old(Abs()), addr, electionTs))
      ensures OnLeaderAck(old(Abs()), addr, electionTs).publish
    {
      var found := LeaderTx(hosts, addr);
      match found {
        case None =>
          leader := Some(Remote(RpcServer(addr, Alive, None, electionTs)));
          state := LeaderTxAwait(addr);
          healthState := healthState.(state := LeaderTxAwait(addr), txLeader := None);
        case Some(tx) =>
          leader := Some(Remote(RpcServer(addr, Alive, Some(tx), electionTs)));
          state := Follower;
          healthState := healthState.(state := Follower, txLeader := Some(tx));
      }
      ackCount := 0;
    }

    method HandleLeaderSwitch(voteHost: Addr, electionTs: int)
      modifies this
      ensures Did(OnLeaderSwitch(old(Abs()), voteHost, electionTs))
      ensures OnLeaderSwitch(old(Abs()), voteHost, electionTs).publish
    {
      if whoami == voteHost {
        ackCount := 0;
        leader := Some(Local(electionTs));
        healthState := healthState.(state := QuorumState.LeaderSwitch, txLeader := None);
      } else {
        var txLeader := LeaderTx(hosts, voteHost);
        leader := Some(Remote(RpcServer(voteHost, Alive, txLeader, electionTs)));
        healthState := healthState.(state := QuorumState.LeaderSwitch, txLeader := txLeader);
      }
      state := QuorumState.LeaderSwitch;
      Send(Broadcast(RpcRequest.LeaderSwitchAck(voteHost)));
      Send(Timer(false));
    }

    method HandleLeaderSwitchDead(voteHost: Addr, electionTs: int)
      modifies this
      ensures Did(OnLeaderSwitchDead(old(Abs()), voteHost, electionTs))
      ensures OnLeaderSwitchDead(old(Abs()), voteHost, electionTs).publish
    {
      var txLeader := LeaderTx(hosts, voteHost);
      leader := Some(Remote(RpcServer(voteHost, Alive, txLeader, electionTs)));
      state := LeaderDead;
      healthState := healthState.(state := LeaderDead, txLeader := txLeader);
      Send(Broadcast(RpcRequest.LeaderReqAck(voteHost, electionTs)));
      Send(Timer(false));
    }

    method HandleLeaderSwitchAck(addr: Addr) returns (publish: bool)
      requires Valid()
      modifies this
      ensures Did(OnLeaderSwitchAck(old(Abs()), addr)) && publish == OnLeaderSwitchAck(old(Abs()), addr).publish
    {
      match leader {
        case None =>
          status := Panicked;
          return false;
        case Some(Local(electionTs)) =>
          if addr == whoami {
            ackCount := ackCount + 1;
            if ackCount >= quorum {
              state := QuorumState.Leader;
              healthState := healthState.(state := QuorumState.Leader);
              Send(Broadcast(RpcRequest.LeaderAck(whoami, electionTs)));
            }
          }
        case Some(Remote(_)) =>
      }
      return true;
    }

    method HandleLeaderSwitchPriority(voteHost: Addr, electionTs: int) returns (publish: bool)
      modifies this
      ensures Did(OnLeaderSwitchPriority(old(Abs()), voteHost, electionTs))
      ensures publish == OnLeaderSwitchPriority(old(Abs()), voteHost, electionTs).publish
    {
      var doSwitch: bool;
      match state {
        case Leader =>
          if leader.Some? && leader.value.Local? {
            doSwitch := electionTs < leader.value.ts;
          } else {
            status := Panicked;
            return false;
          }
        case LeaderDead => doSwitch := true;
        case LeaderSwitch => doSwitch := true;
        case LeaderTxAwait(addr) =>
          if voteHost != addr {
            if leader.Some? && leader.value.Remote? {
              doSwitch := electionTs < leader.value.server.electionTs;
            } else {
              status := Panicked;
              return false;
            }
          } else {
            doSwitch := false;
          }
        case LeadershipRequested(ts) => doSwitch := electionTs < ts;
        case Follower =>
          if leader.Some? && leader.value.Remote? {
            doSwitch := electionTs < leader.value.server.electionTs;
          } else {
            status := Panicked;
            return false;
          }
        case Undefined => doSwitch := true;
        case Retry => doSwitch := true;
      }
      if doSwitch {
        if voteHost == whoami {
          leader := Some(Local(electionTs));
          state := QuorumState.Leader;
          healthState := healthState.(state := QuorumState.Leader, txLeader := None);
        } else {
          var txLeader := LeaderTx(hosts, voteHost);
          leader := Some(Remote(RpcServer(voteHost, Alive, txLeader, electionTs)));
          state := if txLeader.Some? then Follower else LeaderTxAwait(voteHost);
          healthState := healthState.(state := state, txLeader := txLeader);
          Send(Broadcast(RpcRequest.LeaderReqAck(voteHost, electionTs)));
        }
      }
      return true;
    }

    // ----- local events

    method HandleCheckElectionTimeout(now: int) returns (publish: bool)
      requires Valid()
      modifies this
      ensures Did(OnCheckElectionTimeout(old(Abs()), now))
      ensures publish == OnCheckElectionTimeout(old(Abs()), now).publish
    {
      if leader == None {
        return false;
      }
      match state {
        case Retry =>
          state := Undefined;
          match leader.value {
            case Local(_) =>
              status := Panicked;
              return false;
            case Remote(l) =>
              var tx := LeaderTx(hosts, l.address);
              if tx.Some? {
                leader := Some(Remote(RpcServer(l.address, Alive, tx, l.electionTs)));
                state := Follower;
                healthState := healthState.(state := Follower, txLeader := tx);
                Send(Broadcast(RpcRequest.LeaderReqAck(l.address, l.electionTs)));
                Send(Timer(false));
              }
          }
        case LeaderDead =>
          if leader.value.Remote? && |hosts| >= quorum {
            Send(Broadcast(RpcRequest.LeaderSwitchDead(whoami, now)));
            leader := Some(Local(now));
            state := LeadershipRequested(now);
            healthState := healthState.(state := LeadershipRequested(now), txLeader := None);
            Send(Timer(false));
          }
        case LeadershipRequested(ts) =>
          if health != Bad {
            Send(Broadcast(RpcRequest.LeaderReq(whoami, ts)));
            Send(Timer(false));
          } else {
            leader := None;
          }
        case LeaderSwitch =>
          if health != Bad {
            leader := Some(Local(now));
            healthState := healthState.(state := LeadershipRequested(now), txLeader := None);
            Send(Broadcast(RpcRequest.LeaderReq(whoami, now)));
            Send(Timer(false));
          } else {
            leader := None;
          }
        case _ =>
      }
      return true;
    }

    method HandleHostShutdown(pick: Addr, now: int)
      modifies this
      ensures Did(OnHostShutdown(old(Abs()), pick, now))
    {
      if state == QuorumState.Leader {
        if hosts != map[] {
          Send(Broadcast(RpcRequest.LeaderSwitch(pick, now)));
        }
      }
      Send(Broadcast(RpcRequest.Shutdown));
      status := Exited;
    }

    // ----- the loop

    method Handle(e: Event) returns (publish: bool)
      requires Valid()
      modifies this
      ensures Did(Dispatch(old(Abs()), e)) && publish == Dispatch(old(Abs()), e).publish
    {
      hide OnUpdateServer, OnLeaderInfo, OnLeaderReq, OnLeaderReqAck, OnLeaderAck, OnLeaderSwitch, OnLeaderSwitchDead,
        OnLeaderSwitchAck, OnLeaderSwitchPriority, OnCheckElectionTimeout;
      publish := true;
      match e {
        case UpdateServer(server, now) => publish := HandleUpdateServer(server, now);
        case GetReport(_) => Send(Report(QuorumReport(health, state, leader, hosts)));
        case LeaderInfo(addr, ts, hasQuorum) => HandleLeaderInfo(addr, ts, hasQuorum);
        case LeaderReq(addr, ts) => HandleLeaderReq(addr, ts);
        case LeaderReqAck(addr, ts) => HandleLeaderReqAck(addr, ts);
        case LeaderAck(addr, ts) => HandleLeaderAck(addr, ts);
        case LeaderSwitch(voteHost, ts) => HandleLeaderSwitch(voteHost, ts);
        case LeaderSwitchDead(voteHost, ts) => HandleLeaderSwitchDead(voteHost, ts);
        case LeaderSwitchAck(addr) => publish := HandleLeaderSwitchAck(addr);
        case LeaderSwitchPriority(voteHost, ts) => publish := HandleLeaderSwitchPriority(voteHost, ts);
        case CheckElectionTimeout(now) => publish := HandleCheckElectionTimeout(now);
        case HostShutdown(pick, now) => HandleHostShutdown(pick, now); publish := false;
        case Print =>
      }
    }

    /** Everything the handler does with the queue `rx` until it leaves its loop. */
    method Run(rx: seq<Event>)
      requires Valid() && status == Running && sent == []
      modifies this
      ensures Abs() == Exec(old(Abs()), rx)
      ensures sent == Trace(old(Abs()), rx)
    {
      ghost var start := Abs();
      var i := 0;
      while i < |rx| && status == Running
        invariant 0 <= i <= |rx| && Valid()
        invariant Abs() == Exec(start, rx[..i]) && sent == Trace(start, rx[..i])
      {
        hide Dispatch, Init;
        assert rx[..i + 1][..i] == rx[..i];
        var publish := Handle(rx[i]);
        if publish {
          watch := HealthState(health, state, healthState.txLeader, |hosts|);
        }
        i := i + 1;
      }
      StoppedForGood(start, rx, i);
      assert rx[..|rx|] == rx;
    }
  }

  /** All messages of a run, in order. */
  ghost function Trace(n: Node, es: seq<Event>): seq<Output>
    decreases |es|
  {
    if es == [] then []
    else Trace(n, es[..|es| - 1]) + Step(Exec(n, es[..|es| - 1]), es[|es| - 1]).out
  }

  lemma {:induction false} StoppedForGood(n: Node, es: seq<Event>, k: nat)
    requires k <= |es| && (k == |es| || Exec(n, es[..k]).status != Running)
    ensures Exec(n, es) == Exec(n, es[..k]) && Trace(n, es) == Trace(n, es[..k])
    decreases |es|
  {
    if k == |es| {
      assert es[..k] == es;
    } else {
      var before := es[..|es| - 1];
      assert before[..k] == es[..k];
      if k < |before| {
        StoppedForGood(n, before, k);
      } else {
        assert before == es[..k];
      }
    }
  }
}
