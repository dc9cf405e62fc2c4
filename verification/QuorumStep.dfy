/** The quorum handler as a function: one event in, the new handler state and everything it
    sent out. The class in QuorumHandler.dfy does the same in place; the theorems are about
    this function. */
module QuorumStep {
  import opened Types

  /** `peers` are the configured remote hosts; the handler itself only gets their number. */
  datatype Config = Config(whoami: Addr, peers: set<Addr>, caches: seq<string>)
  {
    function Clients(): nat { |peers| }

    function Quorum(): nat { (|peers| + 1) / 2 }
  }

  datatype Status = Running | Exited | Panicked

  datatype Node = Node(
    cfg: Config,
    hosts: map<Addr, RpcServer>,
    health: Health,
    state: QuorumState,
    leader: Option<RegisteredLeader>,
    acks: nat,
    hs: HealthState,
    watch: HealthState,
    status: Status)

  /** What arrives on the handler's queue. `now` is the clock reading an arm may take, `pick`
      the host that iterating the hash map yields first, `asker` the client that connected. */
  datatype Event =
    | UpdateServer(server: RpcServer, now: int)
    | GetReport(asker: Addr)
    | LeaderInfo(addr: Addr, ts: int, hasQuorum: bool)
    | LeaderReq(addr: Addr, ts: int)
    | LeaderReqAck(addr: Addr, ts: int)
    | LeaderAck(addr: Addr, ts: int)
    | LeaderSwitch(voteHost: Addr, ts: int)
    | LeaderSwitchDead(voteHost: Addr, ts: int)
    | LeaderSwitchAck(addr: Addr)
    | LeaderSwitchPriority(voteHost: Addr, ts: int)
    | CheckElectionTimeout(now: int)
    | HostShutdown(pick: Addr, now: int)
    | Print

  /** What one event makes the handler send, in the order in which it sends it. */
  datatype Output =
    | Broadcast(req: RpcRequest)
    | Direct(tx: Channel, req: RpcRequest)
    | ToSelf(event: Event)
    | Timer(retry: bool)
    | ResetCache(name: string)
    | Answer(accepted: bool)
    | Report(report: QuorumReport)

  /** The outcome of one match arm; `publish` is false where the arm leaves the loop body early. */
  datatype Arm = Arm(node: Node, out: seq<Output>, publish: bool)

  function Init(cfg: Config): Node {
    Node(cfg, map[], Bad, Undefined, None, 0,
         HealthState(Bad, Undefined, None, 0), HealthState(Bad, Undefined, None, 0), Running)
  }

  function RemoteAt(addr: Addr, tx: Option<Channel>, ts: int): Option<RegisteredLeader> {
    Some(Remote(RpcServer(addr, Alive, tx, ts)))
  }

  /** `get_leader_tx` */
  function LeaderTx(hosts: map<Addr, RpcServer>, addr: Addr): Option<Channel> {
    if addr in hosts && hosts[addr].tx.Some? then hosts[addr].tx else None
  }

  function LeaderAddr(n: Node): Addr
    requires n.leader.Some?
  {
    if n.leader.value.Local? then n.cfg.whoami else n.leader.value.server.address
  }

  function LeaderTs(n: Node): int
    requires n.leader.Some?
  {
    if n.leader.value.Local? then n.leader.value.ts else n.leader.value.server.electionTs
  }

  function Panic(n: Node): Arm {
    Arm(n.(status := Panicked), [], false)
  }

  function Show(n: Node, state: QuorumState, tx: Option<Channel>): Node {
    n.(state := state, hs := n.hs.(state := state, txLeader := tx))
  }

  /** The messages of `check_leadership_conflict`; empty exactly if there is no conflict. */
  function ConflictOutput(n: Node, addr: Addr, ts: int): seq<Output> {
    if n.leader.None? then []
    else if ts < LeaderTs(n) then
      [ToSelf(Event.LeaderSwitchPriority(addr, ts)), Broadcast(RpcRequest.LeaderSwitchPriority(addr, ts))]
    else
      [Broadcast(RpcRequest.LeaderSwitchPriority(LeaderAddr(n), LeaderTs(n)))]
  }

  // ----- UpdateServer

  /** The leader whose connection we waited for has connected. */
  function TakeAwaited(n: Node, server: RpcServer): Arm {
    if n.state == LeaderTxAwait(server.address) then
      if n.leader.None? then Panic(n)
      else
        var ack := RpcRequest.LeaderReqAck(server.address, LeaderTs(n));
        Arm(Show(n.(leader := RemoteAt(server.address, server.tx, LeaderTs(n))), Follower, server.tx),
            if server.tx.Some? then [Direct(server.tx.value, ack)] else [], true)
    else Arm(n, [], true)
  }

  /** The leader whose request came before its connection has connected. */
  function TakeRetried(n: Node, server: RpcServer): Arm {
    if n.state == Retry && n.leader.Some? then
      match n.leader.value
      case Local(_) => Panic(n)
      case Remote(l) =>
        if l.address == server.address then
          Arm(Show(n.(leader := RemoteAt(server.address, server.tx, l.electionTs)), Follower, server.tx),
              [Broadcast(RpcRequest.LeaderReqAck(l.address, l.electionTs))], true)
        else Arm(n, [], true)
    else Arm(n, [], true)
  }

  function AddHost(n: Node, server: RpcServer, now: int): Arm {
    var m := n.(hosts := n.hosts[server.address := server]);
    if |m.hosts| < m.cfg.Quorum() then Arm(m, [], true)
    else
      var h := if |m.hosts| == m.cfg.Clients() then Good else Degraded;
      if m.health != Good && m.leader.None? then
        var c := Show(m.(leader := Some(Local(now)), acks := 0), LeadershipRequested(now), None);
        Arm(c.(health := h, hs := c.hs.(health := h)),
            [Broadcast(RpcRequest.LeaderReq(m.cfg.whoami, now)), Timer(false)], true)
      else
        Arm(m.(health := h, hs := m.hs.(health := h)), [], true)
  }

  function OnAlive(n: Node, server: RpcServer, now: int): Arm {
    var a := TakeAwaited(n, server);
    if !a.publish then a
    else
      var b := TakeRetried(a.node, server);
      if !b.publish then b
      else
        var c := AddHost(b.node, server, now);
        Arm(c.node, a.out + b.out + c.out, true)
  }

  function Resets(caches: seq<string>): (out: seq<Output>)
    ensures |out| == |caches|
    ensures forall i :: 0 <= i < |caches| ==> out[i] == ResetCache(caches[i])
  {
    seq(|caches|, i requires 0 <= i < |caches| => ResetCache(caches[i]))
  }

  /** Enough hosts are left: if the registered leader is the one that is gone, stand for election,
      unless another switch was acked already. `m` has the host removed. */
  function AfterLossWithQuorum(m: Node, server: RpcServer, now: int): Arm {
    var d := m.(health := Degraded, hs := m.hs.(health := Degraded));
    if m.leader.Some? && m.leader.value.Remote? && m.leader.value.server.address == server.address then
      if m.state == LeaderDead then Arm(d.(acks := 0), [], false)
      else
        Arm(Show(d.(leader := Some(Local(now)), acks := 0), LeadershipRequested(now), None),
            [Broadcast(RpcRequest.LeaderSwitchDead(m.cfg.whoami, now)), Timer(false)], true)
    else Arm(d, [], true)
  }

  /** Too few hosts are left: forget the leader and reset every cache, once. */
  function AfterLossOfQuorum(m: Node): Arm {
    if m.health != Bad then
      Arm(m.(leader := None, health := Bad, state := Undefined, acks := 0,
             hs := m.hs.(health := Bad, state := Undefined, txLeader := None)),
          Resets(m.cfg.caches), true)
    else Arm(m, [], true)
  }

  function OnDead(n: Node, server: RpcServer, now: int): Arm {
    var m := n.(hosts := n.hosts - {server.address});
    if |m.hosts| >= m.cfg.Quorum() then AfterLossWithQuorum(m, server, now) else AfterLossOfQuorum(m)
  }

  function OnUpdateServer(n: Node, server: RpcServer, now: int): Arm {
    var a := if server.liveness == Alive then OnAlive(n, server, now) else OnDead(n, server, now);
    if a.publish then a.(node := a.node.(hs := a.node.hs.(connectedHosts := |a.node.hosts|))) else a
  }

  // ----- messages from other hosts

  function OnLeaderInfo(n: Node, addr: Addr, ts: int, hasQuorum: bool): Arm {
    var conflict := ConflictOutput(n, addr, ts);
    if (hasQuorum && (n.state == Undefined || n.state == Retry) && addr != n.cfg.whoami) || n.leader.None? then
      match LeaderTx(n.hosts, addr)
      case None =>
        var m := n.(leader := RemoteAt(addr, None, ts), state := LeaderTxAwait(addr));
        Arm(m.(hs := m.hs.(state := LeaderTxAwait(addr))), conflict, true)
      case Some(tx) =>
        Arm(Show(n.(leader := RemoteAt(addr, Some(tx), ts)), Follower, Some(tx)),
            conflict + [Direct(tx, RpcRequest.LeaderReqAck(addr, ts))], true)
    else Arm(n, conflict, true)
  }

  function OnLeaderReq(n: Node, addr: Addr, ts: int): Arm {
    if n.leader.Some? then Arm(n, ConflictOutput(n, addr, ts) + [Answer(false)], true)
    else
      var tx := LeaderTx(n.hosts, addr);
      var m := n.(leader := RemoteAt(addr, tx, ts));
      if tx.Some? then Arm(m.(hs := m.hs.(txLeader := tx)), [Timer(false), Answer(true)], true)
      else Arm(Show(m, Retry, None), [Timer(true), Answer(false)], true)
  }

  function OnLeaderReqAck(n: Node, addr: Addr, ts: int): Arm {
    match n.leader
    case None =>
      var tx := LeaderTx(n.hosts, addr);
      Arm(Show(n.(leader := RemoteAt(addr, tx, ts)), LeaderTxAwait(addr), tx),
          [Broadcast(RpcRequest.LeaderReqAck(addr, ts)), Timer(false)], true)
    case Some(lead) =>
      var conflict := ConflictOutput(n, addr, ts);
      if lead.Local? && addr == n.cfg.whoami then
        var m := n.(acks := n.acks + 1);
        if m.acks >= m.cfg.Quorum() then
          Arm(Show(m, Leader, None), conflict + [Broadcast(RpcRequest.LeaderAck(n.cfg.whoami, lead.ts))], true)
        else Arm(m, conflict, true)
      else Arm(n, conflict, true)
  }

  function OnLeaderAck(n: Node, addr: Addr, ts: int): Arm {
    var tx := LeaderTx(n.hosts, addr);
    Arm(Show(n.(leader := RemoteAt(addr, tx, ts), acks := 0),
             if tx.Some? then Follower else LeaderTxAwait(addr), tx), [], true)
  }

  function OnLeaderSwitch(n: Node, voteHost: Addr, ts: int): Arm {
    var out := [Broadcast(RpcRequest.LeaderSwitchAck(voteHost)), Timer(false)];
    if voteHost == n.cfg.whoami then
      Arm(Show(n.(leader := Some(Local(ts)), acks := 0), QuorumState.LeaderSwitch, None), out, true)
    else
      var tx := LeaderTx(n.hosts, voteHost);
      Arm(Show(n.(leader := RemoteAt(voteHost, tx, ts)), QuorumState.LeaderSwitch, tx), out, true)
  }

  function OnLeaderSwitchDead(n: Node, voteHost: Addr, ts: int): Arm {
    var tx := LeaderTx(n.hosts, voteHost);
    Arm(Show(n.(leader := RemoteAt(voteHost, tx, ts)), LeaderDead, tx),
        [Broadcast(RpcRequest.LeaderReqAck(voteHost, ts)), Timer(false)], true)
  }

  function OnLeaderSwitchAck(n: Node, addr: Addr): Arm {
    match n.leader
    case None => Panic(n)
    case Some(lead) =>
      if lead.Local? && addr == n.cfg.whoami then
        var m := n.(acks := n.acks + 1);
        if m.acks >= m.cfg.Quorum() then
          Arm(m.(state := Leader, hs := m.hs.(state := Leader)),
              [Broadcast(RpcRequest.LeaderAck(n.cfg.whoami, lead.ts))], true)
        else Arm(m, [], true)
      else Arm(n, [], true)
  }

  /** Whether a priority switch at `ts` is taken; None where the source is `unreachable!`. */
  function DoSwitch(n: Node, voteHost: Addr, ts: int): Option<bool> {
    match n.state
    case Leader => if n.leader.Some? && n.leader.value.Local? then Some(ts < n.leader.value.ts) else None
    case LeaderDead => Some(true)
    case LeaderSwitch => Some(true)
    case LeaderTxAwait(addr) =>
      if voteHost == addr then Some(false)
      else if n.leader.Some? && n.leader.value.Remote? then Some(ts < n.leader.value.server.electionTs)
      else None
    case LeadershipRequested(own) => Some(ts < own)
    case Follower =>
      if n.leader.Some? && n.leader.value.Remote? then Some(ts < n.leader.value.server.electionTs) else None
    case Undefined => Some(true)
    case Retry => Some(true)
  }

  function OnLeaderSwitchPriority(n: Node, voteHost: Addr, ts: int): Arm {
    match DoSwitch(n, voteHost, ts)
    case None => Panic(n)
    case Some(false) => Arm(n, [], true)
    case Some(true) =>
      if voteHost == n.cfg.whoami then
        Arm(Show(n.(leader := Some(Local(ts))), Leader, None), [], true)
      else
        var tx := LeaderTx(n.hosts, voteHost);
        Arm(Show(n.(leader := RemoteAt(voteHost, tx, ts)), if tx.Some? then Follower else LeaderTxAwait(voteHost), tx),
            [Broadcast(RpcRequest.LeaderReqAck(voteHost, ts))], true)
  }

  // ----- local events

  function OnCheckElectionTimeout(n: Node, now: int): Arm {
    if n.leader.None? then Arm(n, [], false)
    else
      var lead := n.leader.value;
      match n.state
      case Retry =>
        var m := n.(state := Undefined);
        if lead.Local? then Panic(m)
        else
          var l := lead.server;
          var tx := LeaderTx(n.hosts, l.address);
          if tx.Some? then
            Arm(Show(m.(leader := RemoteAt(l.address, tx, l.electionTs)), Follower, tx),
                [Broadcast(RpcRequest.LeaderReqAck(l.address, l.electionTs)), Timer(false)], true)
          else Arm(m, [], true)
      case LeaderDead =>
        if lead.Remote? && |n.hosts| >= n.cfg.Quorum() then
          Arm(Show(n.(leader := Some(Local(now))), LeadershipRequested(now), None),
              [Broadcast(RpcRequest.LeaderSwitchDead(n.cfg.whoami, now)), Timer(false)], true)
        else Arm(n, [], true)
      case LeadershipRequested(ts) =>
        if n.health != Bad then
          Arm(n, [Broadcast(RpcRequest.LeaderReq(n.cfg.whoami, ts)), Timer(false)], true)
        else Arm(n.(leader := None), [], true)
      case LeaderSwitch =>
        if n.health != Bad then
          Arm(n.(leader := Some(Local(now)), hs := n.hs.(state := LeadershipRequested(now), txLeader := None)),
              [Broadcast(RpcRequest.LeaderReq(n.cfg.whoami, now)), Timer(false)], true)
        else Arm(n.(leader := None), [], true)
      case _ => Arm(n, [], true)
  }

  function OnHostShutdown(n: Node, pick: Addr, now: int): Arm {
    Arm(n.(status := Exited),
        (if n.state == Leader && n.hosts != map[] then [Broadcast(RpcRequest.LeaderSwitch(pick, now))] else [])
        + [Broadcast(RpcRequest.Shutdown)], false)
  }

  // ----- the loop body

  function Dispatch(n: Node, e: Event): Arm {
    match e
    case UpdateServer(server, now) => OnUpdateServer(n, server, now)
    case GetReport(_) => Arm(n, [Report(QuorumReport(n.health, n.state, n.leader, n.hosts))], true)
    case LeaderInfo(addr, ts, hasQuorum) => OnLeaderInfo(n, addr, ts, hasQuorum)
    case LeaderReq(addr, ts) => OnLeaderReq(n, addr, ts)
    case LeaderReqAck(addr, ts) => OnLeaderReqAck(n, addr, ts)
    case LeaderAck(addr, ts) => OnLeaderAck(n, addr, ts)
    case LeaderSwitch(voteHost, ts) => OnLeaderSwitch(n, voteHost, ts)
    case LeaderSwitchDead(voteHost, ts) => OnLeaderSwitchDead(n, voteHost, ts)
    case LeaderSwitchAck(addr) => OnLeaderSwitchAck(n, addr)
    case LeaderSwitchPriority(voteHost, ts) => OnLeaderSwitchPriority(n, voteHost, ts)
    case CheckElectionTimeout(now) => OnCheckElectionTimeout(n, now)
    case HostShutdown(pick, now) => OnHostShutdown(n, pick, now)
    case Print => Arm(n, [], true)
  }

  function Publish(n: Node): Node {
    n.(watch := HealthState(n.health, n.state, n.hs.txLeader, |n.hosts|))
  }

  datatype StepResult = StepResult(node: Node, out: seq<Output>)

  /** One turn of the loop. A handler that has left its loop does nothing. */
  function Step(n: Node, e: Event): StepResult {
    if n.status != Running then StepResult(n, [])
    else
      var a := Dispatch(n, e);
      StepResult(if a.publish then Publish(a.node) else a.node, a.out)
  }

  // ----- runs of one handler

  /** What the surroundings of the handler guarantee about an event: the client tasks only report
      configured hosts and pass their own queue, and a map's first key is one of its keys. */
  ghost predicate ValidEvent(n: Node, e: Event) {
    && (e.UpdateServer? ==>
        && e.server.address in n.cfg.peers
        && (e.server.liveness == Alive ==> e.server.tx == Some(Channel(e.server.address))))
    && (e.HostShutdown? && n.hosts != map[] ==> e.pick in n.hosts)
  }

  function Exec(n: Node, es: seq<Event>): Node
    decreases |es|
  {
    if es == [] then n else Step(Exec(n, es[..|es| - 1]), es[|es| - 1]).node
  }

  ghost predicate ValidRun(n: Node, es: seq<Event>)
    decreases |es|
  {
    es == [] ||
    (ValidRun(n, es[..|es| - 1]) && ValidEvent(Exec(n, es[..|es| - 1]), es[|es| - 1]))
  }

  lemma UnfoldRun(n: Node, es: seq<Event>, e: Event)
    ensures Exec(n, es + [e]) == Step(Exec(n, es), e).node
    ensures ValidRun(n, es + [e]) <==> ValidRun(n, es) && ValidEvent(Exec(n, es), e)
  {
    assert (es + [e])[..|es|] == es;
  }

  ghost predicate ValidConfig(cfg: Config) {
    |cfg.peers| >= 1 && cfg.whoami !in cfg.peers
  }
}
