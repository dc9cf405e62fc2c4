/** The data that the quorum handler, the clients, the server and the caches exchange. */
module Types {

  datatype Option<+T> = None | Some(value: T)

  type Addr = string

  ghost predicate Distinct<T>(s: seq<T>) {
    forall i, j :: 0 <= i < j < |s| ==> s[i] != s[j]
  }

  newtype byte = x: int | 0 <= x < 256
  type Bytes = seq<byte>

  /** The sending half of the queue that feeds the client task of one configured host.
      `cache_clients` makes exactly one per host, so the host identifies it. */
  datatype Channel = Channel(host: Addr)

  /** The sending half of a response queue made for one cache operation. */
  type RespTx = nat

  datatype Health = Good | Degraded | Bad

  datatype QuorumState =
    | Leader
    | LeaderDead
    | LeaderSwitch
    | LeaderTxAwait(awaited: Addr)
    | LeadershipRequested(since: int)
    | Follower
    | Undefined
    | Retry

  datatype Liveness = Alive | Dead

  datatype RpcServer = RpcServer(address: Addr, liveness: Liveness, tx: Option<Channel>, electionTs: int)

  datatype RegisteredLeader = Local(ts: int) | Remote(server: RpcServer)

  /** What the handler publishes on its watch channel and the cache functions read. */
  datatype HealthState = HealthState(health: Health, state: QuorumState, txLeader: Option<Channel>, connectedHosts: nat)
  {
    predicate IsQuorumGood() {
      match health
      case Good => true
      case Degraded => true
      case Bad => false
    }
  }

  datatype QuorumReport =
    QuorumReport(health: Health, state: QuorumState, leader: Option<RegisteredLeader>, hosts: map<Addr, RpcServer>)

  datatype AckLevel = Quorum | Once | OnlyLeader

  datatype RpcRequest =
    | Ping
    | Get(cacheName: string, entry: string, resp: RespTx)
    | Put(cacheName: string, entry: string, value: Bytes, respOpt: Option<RespTx>)
    | Insert(cacheName: string, entry: string, value: Bytes, ackLevel: AckLevel, resp: RespTx)
    | Del(cacheName: string, entry: string, respOpt: Option<RespTx>)
    | Remove(cacheName: string, entry: string, ackLevel: AckLevel, resp: RespTx)
    | LeaderReq(addr: Addr, ts: int)
    | LeaderAck(addr: Addr, ts: int)
    | LeaderSwitch(voteHost: Addr, ts: int)
    | LeaderReqAck(addr: Addr, ts: int)
    | LeaderSwitchAck(addr: Addr)
    | LeaderSwitchDead(voteHost: Addr, ts: int)
    | LeaderSwitchPriority(voteHost: Addr, ts: int)
    | Shutdown

  datatype CacheReq =
    | Get(entry: string)
    | Put(entry: string, value: Bytes)
    | Del(entry: string)
    | Reset
}
