# Proofs about redhac

redhac keeps caches on several hosts in step. Every host runs a *quorum handler*, one loop over a
queue of events that knows which other hosts are connected, elects a leader and publishes a health
snapshot; a *client task* per other host that sends requests to it and reports the connection; a
*server* that turns the requests of others into events and cache operations; and one task per cache.
Writes with acks go through the leader, and a host that loses its quorum empties its caches.

This project models these parts in Dafny and proves what they keep, over every run.

- **The handler.** `QuorumHandler.dfy` is the handler as an object that updates its fields event by
  event. `QuorumStep.dfy` is the same as a function, `Step`, from a state and an event to the new state
  and everything sent; each method is proved against its arm, and the loop against `Exec`, the fold of
  `Step` over the queue. The theorems are proved about `Step` and hold of the object
  (`HandlerTask.dfy`). A panic is an explicit outcome.
- **One handler, all queues.** `NodeInvariants.dfy`, `Outputs.dfy`, `Duties.dfy`, `Votes.dfy`,
  `StaleAcks.dfy`, `Priority.dfy`, `LeaderReach.dfy`, `Invalidation.dfy` and `Snapshot.dfy` hold for
  whatever the queue delivers, in whatever order. `Outputs.dfy` says what a message means, `Duties.dfy`
  exactly when each one is owed and sent, and exactly when the leader, the state, the count and the
  connected hosts change; it does not mention the arms of `Step`.
- **A cluster over a bad network.** In `Network.dfy` every envelope once sent can be delivered at any
  later time, any number of times or never, and connections come and go freely. `Post.dfy` says
  exactly which envelopes a step puts there.
- **Conflicting candidacies.** The situation of `examples/conflict_resolution_tests` for any number of
  hosts: all stand at once. In `Race.dfy`, `Cascade.dfy` (it ends) and `Earliest.dfy` (who wins) the
  messages may be delivered in any order at all. `Queues.dfy` is the network that there really is:
  first in, first out on every connection and in every handler's own queue, and a server that waits
  for the answer to a request. Over it, `SmallRaces.dfy`, `Prompt.dfy`, `LateNews.dfy` and
  `Leaderless.dfy` prove which races are sure to elect the earliest candidate. `Reordering.dfy` is
  about connections that reorder, which redhac's do not. `Joining.dfy` proves when starting hosts get
  into this situation.
- **Writes, lookups, caches.** `WritePath.dfy`, `WriteSafety.dfy`, `Correlator.dfy`, `CacheTask.dfy`,
  `Replication.dfy`, `LeaderWrites.dfy` (a write from the call to every cache) and `Startup.dfy`.

Assumptions, stated as `ValidConfig` and `ValidEvent`: there is at least one other host, addresses are
distinct, the client tasks report only configured hosts and pass their own queue along
(`src/client.rs:277-282`), and the first key of a map is one of its keys. Clock readings are
arbitrary integers carried by the events; only where it is said are they distinct. The timestamps
are `i64` in the source and are only ever compared, so unbounded integers lose nothing.

## What the code does not keep

Some things that the code or its comments take for granted turn out false. Each has a lemma with the
input that shows it and one with the exact condition.

- A switch ack that finds no leader is taken for impossible (`src/quorum.rs:766`) and panics the handler.
  Input: `OrphanAckPanics`; it is the only event that does: `PanicsExactlyOnOrphanAck`.
- `cache_remove` takes an undecided handler with a good quorum for impossible (`src/lib.rs:1204-1205`) and
  panics. Input: `UndecidedWithQuorum`, in every cluster; condition: `RemoveAfterAnyRun`.
- The earliest request is meant to win (`proto/cache.proto:136-139`). A race of five or more hosts can end
  with nothing left to do and every host a follower. Input: `RaceWithoutLeader`; up to four hosts are
  safe: `AlwaysElectsIffFour`.
- A candidate is meant to have a quorum of acks when it announces itself. It counts every ack with its
  address, whatever candidacy that was for (`src/quorum.rs:629-632`). Input: `StaleAcksAnnounce`;
  condition: `AnnouncedCandidacyIsAckedIff`.
- The number of hosts in the published snapshot, by which writes and lookups count their answers, is meant to be
  that of the connected hosts (`src/quorum.rs:1128`). The arm that ignores the death of a candidate publishes
  nothing (`src/quorum.rs:387-389`), so it can be one too many. Input: `DeadCandidateGoesUnseen`; exact number
  after every run: `PublishedHostsAreCounted`; always right only with one other host: `PublishedNumberIsRightIff`.
- A follower can lose the connection to its leader and stay its follower. Input: `BriefLeaderParts`;
  condition, at most three hosts: `FollowersReachTheirLeaderIff`.
- The comment at `src/quorum.rs:894-895` promises a timeout while the channel to a new leader is missing, but
  its condition, the state `LeaderDead`, cannot hold there. Input: `AwaitsInVain`; the one event that
  does set a timeout: `AwaitHasTimeoutIff`.
- The number of acks of a quorum write and the quorum of the handler are derived separately and may differ.
  Input: `TwoMatchesOfFour`; condition: `QuorumsAgreeIff`.
- Overlapping writes at the leader may reach its own caches in another order than all others. Input:
  `OverlapDiverges`; conditions: `LeaderAgreesIff` for the logs of whole runs, `OverlapAgreesIff` for what
  lookups find.
- The comment on `cache_del` (`src/lib.rs:1077`) speaks of a return on bad quorum; the code does not look.
  Input: `PutsAndDeletionsDiffer`; condition: the contract of `Host.CacheDel`.

## Model

| member | source | states |
|---|---|---|
| QuorumHandler.Handler.constructor | src/quorum.rs:214-226 | a handler starts undecided, without leader, hosts or quorum |
| QuorumHandler.Handler.Handle | src/quorum.rs:242-1122 | on every event the object changes as the arm for it prescribes, sends what that sends, and says whether the arm skips the snapshot |
| QuorumHandler.Handler.Run | src/quorum.rs:233-1132 | over any queue the object and all it sends are the fold of the step function, and nothing happens after it has left its loop |
| HandlerTask.RunHandler | src/quorum.rs:205-1135 | however its queue is filled, the object is left consistent, has panicked exactly on an orphan switch ack, has counted the acks since the last discard, has published a snapshot that can be trusted and whose number of hosts is exact but for an unseen loss, has sent exactly what it owed on the way, only what it backs, and each cache as many resets as it lost the quorum |
| NodeInvariants.StepKeepsInv | src/quorum.rs:233-1132 | every event keeps the coupling of state and leader, the exact health, the follower's channel and the faithful snapshot, and panics exactly on a switch ack without a leader |
| NodeInvariants.RunKeepsInv | src/quorum.rs:205-1135 | the same in every reachable state |
| NodeInvariants.PanicsExactlyOnOrphanAck | src/quorum.rs:765-766 | a run ends in a panic if and only if a switch ack found no leader; no `unwrap` and no other `unreachable!` is ever reached |
| NodeInvariants.OrphanAckPanics | src/quorum.rs:765-766 | such a run exists for every configuration |
| NodeInvariants.HealthIsExact | src/quorum.rs:316-358 | health is bad exactly below the quorum and good exactly with all peers connected |
| NodeInvariants.CandidateIsHealthy | src/quorum.rs:1031-1053 | a timeout of a candidate always repeats its request; the arm that withdraws it is dead |
| NodeInvariants.SnapshotCanBeTrusted | src/quorum.rs:1124-1131 | despite skipped publications the snapshot has the handler's state, its verdict on the quorum, enough hosts behind a good one, and for a follower the channel of the registered leader |
| Snapshot.PublishedHostsAreCounted | src/quorum.rs:1124-1131 | after any run the snapshot speaks of exactly the connected hosts, but for one more if the leader's loss went unseen since it was published, and its health is what that number gives |
| Snapshot.DeadCandidateGoesUnseen | src/quorum.rs:387-389 | a run after which it speaks of one too many, for any peers more than the quorum |
| Snapshot.PublishedNumberIsRightIff | src/quorum.rs:1124-1131 | that number is right after every run if and only if there is one other host |
| Duties.SendsExactlyWhatItOwes | src/quorum.rs:242-1202 | of every message to anyone, timeout, reset and answer: it is sent on an event if and only if the handler owes it then |
| Duties.MovesExactly | src/quorum.rs:242-1122 | the leader changes exactly when one is adopted, a candidacy begins, the quorum is lost or a candidate withdraws, and to whom; the state exactly when something makes the handler enter another one |
| Duties.CountMoves | src/quorum.rs:329-714 | the count starts anew at exactly five occasions and else grows by one exactly with an ack for the handler itself |
| Duties.HostsMove | src/quorum.rs:252-434 | a host is connected exactly if it has just connected, or was and has not just dropped out |
| Duties.NothingTwice | src/quorum.rs:242-1202 | no step sends the same twice |
| Duties.LeaderLossIsAnswered | src/quorum.rs:361-411 | whoever loses its leader with a quorum left, and has not acked another candidate, stands with its own timestamp, says so to all and sets a timeout |
| Duties.CandidacyIsMade | src/quorum.rs:329-1066 | whoever begins a candidacy is registered with its own timestamp, asks all others and sets a timeout |
| Duties.RegistrationIsAcked | src/quorum.rs:459-891 | registering another host on its information, its request, its early ack, its announcement after a death or its proposal also acks it: over its channel, as the answer, or to all |
| Duties.QuorumIsAnnounced | src/quorum.rs:629-652 | a candidate announces itself to all if and only if an ack for it completes the quorum, and leads then |
| Outputs.OutputsAreSound | src/quorum.rs:242-1202 | every message is backed by the registration at the end of its step: acks name the registered pair, requests and announcements the sender's own, proposals a known one |
| Outputs.WaitingHasTimeout | src/quorum.rs:347-411 | whoever comes to stand, to retry, to wait after a leader's death or for a switch has set a timeout, the long one exactly for a retry |
| Outputs.AwaitHasTimeoutIff | src/quorum.rs:459-895 | whoever comes to wait for its leader's connection has set a timeout if and only if an ack found it without a leader |
| Outputs.AwaitsInVain | src/quorum.rs:667-697 | the first message can make any handler wait without a timeout, and a timeout would not end it |
| Votes.CounterIsExact | src/quorum.rs:336-632 | the counter is the number of acks for the handler itself since the last event that discards them, over every run |
| Votes.AnnouncedOnlyWithQuorum | src/quorum.rs:638-652 | an announcement names its sender, its own timestamp and follows at least a quorum of acks |
| Votes.AnnouncedCandidacyIsAckedIff | src/quorum.rs:629-652 | the announcement that a quorum completes is backed by a quorum of acks for that very candidacy if and only if no other ack was counted on the way |
| StaleAcks.StaleAcksAnnounce | src/quorum.rs:629-652 | in every cluster a candidate can announce itself on acks of which not one is for its candidacy |
| Priority.RunPrefersEarlier | src/quorum.rs:801-899 | between failures and announcements the leader's timestamp never grows and a new leader has a strictly earlier one |
| LeaderReach.PartsExactlyUnderBad | src/quorum.rs:361-432 | the one step that parts a follower from its leader is the leader's loss while the quorum is already lost |
| LeaderReach.BriefLeaderParts | src/quorum.rs:361-432 | a run of three events that does so for every quorum above one |
| LeaderReach.FollowersReachTheirLeaderIff | src/quorum.rs:214-431 | in all reachable states followers are connected to their leader if and only if the cluster has at most three hosts |
| Invalidation.ResetsEqualCrossings | src/quorum.rs:413-430 | over every run each cache gets exactly as many resets as the quorum was lost |
| Wire.FanMembers | src/client.rs:159-175 | a broadcast reaches every host of the cluster but the sender, and nobody else |
| Post.PostedExactly | src/client.rs:388-676 | of every envelope: it is on the network after a step if and only if it was before or the host owes it to this receiver; broadcasts to everyone else, acks over a channel or as the answer, greetings to whoever connects |
| Post.MintsExactly | src/quorum.rs:329-1104 | a candidate's pair is created exactly when its host begins a candidacy or a leader that shuts down votes for it |
| Post.WhatIsMintedIsPosted | src/quorum.rs:329-1104 | in any run, whenever a pair is created, the request, the takeover or the vote with it is on its way to every other host, and a candidate is registered with it |
| Network.ClusterKeepsInvariants | src/server.rs:179-697 | over any network: registered and travelling candidates were really created, acks come from hosts that registered whom they ack, a host that has counted one has a voter |
| Network.MintedAtSomeStep | src/quorum.rs:329-1104 | every candidate's timestamp is the clock reading of one step of the run, at the candidate itself or at a leader that shut down and voted for it |
| Network.EveryLeaderStood | src/quorum.rs:487-1105 | so nobody ever follows a host that did not stand |
| Network.AnnouncementHasMajority | src/quorum.rs:632-652 | whoever announces itself was registered before by the host whose ack makes it do so, with the timestamp of that ack; in clusters of up to three hosts that is a majority |
| Network.NoTwoHealthyPartitions | src/quorum.rs:214-380 | if the hosts fall apart into groups, the hosts that consider the quorum good are all in one group |
| Race.OnReq | src/quorum.rs:521-589 | in a race a request changes nothing and makes its receiver propose the earlier of the two to all |
| Race.OnReqAck | src/quorum.rs:618-664 | in a race an ack also counts, and completes the election at half of the cluster |
| Race.OnPriority | src/quorum.rs:804-891 | in a race a proposal is taken exactly if it is earlier, and then acked to all |
| Race.OnAck | src/quorum.rs:681-696 | in a race an announcement is followed whatever was registered |
| Race.DeliverKeepsInv | src/quorum.rs:521-949 | whatever is delivered, every host stands, leads itself or follows one that stood, and all messages name one that stood |
| Joining.JoiningHostStands | src/quorum.rs:314-358 | a starting host that its peers join in any order stands from its quorum on and sends exactly one request |
| Joining.BootKeepsInv | src/client.rs:262-282 | whatever the order of connections, drains and answers, a starting host has its request left exactly for those who connected in time and has told of a leader exactly those it answered late |
| Joining.StartupIsRaceIff | src/server.rs:175-210 | if nothing else has been handled, a cluster that has started up is in the initial situation of a race if and only if at every host all connections came up and all answers were given before it stood |
| Joining.StartsInTime | src/client.rs:262-282 | every host can start like that |
| Cascade.DeliverIsLighter | src/quorum.rs:521-949 | every delivery lowers a natural number, weighted by the ranks of the candidates |
| Cascade.CascadeDiesOut | src/quorum.rs:521-949 | from any state of a race every order of delivery is finite, with a bound; timestamps may coincide |
| Cascade.EveryRaceEnds | src/quorum.rs:1140-1202 | the same from simultaneous candidacies of a cluster of any size |
| Earliest.OnlyHarmLosesAHost | src/quorum.rs:667-699 | all hosts stay on the way to the earliest candidate after a delivery if and only if it is not another one's announcement to a host that follows the earliest and that no message would lead back |
| Earliest.DeliverVotesAddUp | src/quorum.rs:629-652 | until the earliest candidate leads, each of its followers has voted for it and the vote is counted or on the way |
| Earliest.NoLoserIsHarmless | src/quorum.rs:667-699 | a schedule without announcements of losers does no harm |
| Earliest.EarliestCandidateWins | proto/cache.proto:136-139 | when a race without harm has nothing left to deliver but announcements of losers, the earliest candidate leads with its own timestamp and all others are its followers |
| Queues.GoInBag | src/server.rs:213-697 | over the queues a handling is one of the deliveries of a race, and an arrival is nothing |
| Queues.HandleEffect | src/quorum.rs:521-949 | what a handling changes, by address alone: the leader, the count, and what is on every connection, in order |
| Queues.EveryRunEnds | src/quorum.rs:1140-1202 | however hosts and connections take turns, a race over the queues is over after a bounded number of moves |
| SmallRaces.SmallRacesElect | proto/cache.proto:136-139 | with up to four hosts every run over the queues that comes to its end has elected the earliest candidate |
| Prompt.ElectionCompletes | src/quorum.rs:521-949 | with any number of hosts some run over the queues elects the earliest candidate |
| Leaderless.SecondWins | src/quorum.rs:629-652 | a host can collect its quorum while the switch that would stop it waits in its own queue |
| Leaderless.RaceWithoutLeader | src/quorum.rs:681-696 | from five hosts on, for any distinct timestamps, some run over the queues ends with nothing left and only followers |
| Leaderless.AlwaysElectsIffFour | src/quorum.rs:521-949 | for any distinct timestamps, every run over the queues that comes to its end elects the earliest candidate if and only if at most four hosts take part |
| Reordering.ReorderedRaceWithoutLeader | src/quorum.rs:681-696 | if connections reordered messages, a race of three hosts or more could end with an empty network and only followers |
| Reordering.ReorderedElectsIffTwo | src/quorum.rs:521-949 | if connections reordered messages, every completed race would elect the earliest candidate if and only if two hosts take part |
| WritePath.AwaitAcks | src/lib.rs:1036-1055 | for any stream of true, false and errors: success exactly if enough of the first responses, one per connected host, are true, or no host is connected; never reads more and stops at the first response that makes it enough |
| WritePath.AckedMeans | src/lib.rs:1014-1055 | what each ack level asks of the responses of the connected hosts: a quorum, one, or none, and nothing if no host is connected |
| WritePath.Host.InsertFromLeader | src/lib.rs:966-1075 | what is refused untouched, and that else one write goes to all and to the local cache; the result is true exactly if the level is the leader's own word, no host is connected, or one or a quorum of the connected hosts' responses are true |
| WritePath.Host.RemoveFromLeader | src/lib.rs:1224-1332 | the same for deletions, and that it panics exactly on a host that does not lead |
| WritePath.Host.CachePut | src/lib.rs:793-844 | a direct put is refused exactly with a bad quorum or an unknown cache |
| WritePath.Host.CacheDel | src/lib.rs:1079-1117 | a direct deletion does not look at the quorum |
| WritePath.Host.CacheInsert | src/lib.rs:861-961 | which states write, forward, refuse; a forwarded insert succeeds exactly on the leader's word |
| WritePath.Host.CacheRemove | src/lib.rs:1129-1220 | the same for deletions, with its two panics |
| WritePath.Host.CacheGetValue | src/lib.rs:691-769 | the local cache is asked first and the others exactly if it has nothing, with HA and on demand; rejected with nothing sent exactly on a bad quorum or an unknown cache |
| WritePath.RemoteLookup | src/lib.rs:751-765 | the first value among the first answers, one per connected host, or none; underflows exactly with no host connected and an empty answer |
| LeaderWrites.InsertEverywhere | src/lib.rs:1014-1055 | a leader's insert asks every server that applies its broadcast for exactly what the leader's own caches were asked; each that knows the cache answers exactly if the level needs it, and the result is the exact verdict on the answers |
| LeaderWrites.RemoveEverywhere | src/lib.rs:1270-1332 | the same for a remove |
| LeaderWrites.DirectEverywhere | src/lib.rs:793-1117 | a direct put and a direct deletion ask all caches for the same, and nobody answers |
| LeaderWrites.InsertAsLeader | src/lib.rs:861-961 | `cache_insert` on a leading host does that and succeeds whatever the answers, or fails without the cache |
| LeaderWrites.RemoveAsLeader | src/lib.rs:1129-1220 | the same for `cache_remove` |
| LeaderWrites.InsertThroughLeader | src/server.rs:320-375 | a follower's insert succeeds exactly if its leader finds it acked; only the leader writes |
| LeaderWrites.RemoveThroughLeader | src/server.rs:429-483 | the same for a remove; a leader that does not lead any more breaks the stream, and the follower's call fails |
| WriteSafety.InsertAfterAnyRun | src/lib.rs:922-941 | on a snapshot that any run of the handler has published an insert never crashes, and a follower forwards it to its registered leader |
| WriteSafety.RemoveAfterAnyRun | src/lib.rs:1185-1206 | a remove crashes exactly if the handler has a quorum and is undecided |
| WriteSafety.UndecidedWithQuorum | src/quorum.rs:558-994 | in every cluster a run leads there |
| WriteSafety.LookupAfterAnyRun | src/lib.rs:697-765 | on the snapshot of any run that ends with a quorum a lookup is never rejected and never underflows; asking the others, it finds nothing exactly if none of as many answers as hosts are connected, one more after an unseen loss, has a value, and else exactly the first value |
| WriteSafety.QuorumWriteHasMajority | src/lib.rs:1014-1055 | with a connected host a quorum write is reported as acked if and only if more than half of the cluster are known to have queued it; without one always, with no majority |
| WriteSafety.AckedInsertHasMajority | src/lib.rs:966-1075 | after any run of the handler that ends with a quorum, an insert into a known cache is reported as acked if and only if more than half of the cluster are known to have queued it |
| WriteSafety.AckedRemoveHasMajority | src/lib.rs:1224-1332 | the same for a remove on a host that leads |
| WriteSafety.QuorumWritesMeet | src/lib.rs:1014-1055 | any two acked quorum writes, even by different leaders after different runs, were queued by a common host |
| WriteSafety.PutsAndDeletionsDiffer | src/lib.rs:1077-1117 | with a bad quorum a put is refused and a deletion is carried out |
| Correlator.Callbacks.Run | src/client.rs:288-357 | exactly the responses whose id was saved before, has not expired and was not used in between are delivered: each once, in order, with its value, to the channel saved for it; so no channel gets more answers than were asked for on it, even if ids collide |
| CacheTask.Cache.Serve | src/lib.rs:1510-1545 | whatever the cache drops, a get finds nothing or the latest put that no delete or reset followed; exactly that if nothing is dropped |
| CacheTask.LatestExactly | src/lib.rs:1510-1545 | what a lookup should find: a value exactly if the last request about the entry, resets included, has put it |
| CacheTask.ResetForgets | src/lib.rs:1539-1542 | after a reset the earlier requests make no difference |
| CacheTask.NoAnswerFromBeforeReset | src/lib.rs:1525-1542 | whatever a cache answers after a reset was put after that reset |
| Replication.Broadcaster.Run | src/client.rs:159-175 | every client gets everything in the same order up to the shutdown |
| Replication.StopsAtShutdown | src/client.rs:159-175 | what is broadcast is the whole queue or its part up to the first shutdown |
| Replication.Server.Apply | src/server.rs:267-427 | a put or delete is queued and then acked, in this order, and neither for an unknown cache |
| Replication.AckFollowsItsWrite | src/server.rs:267-318 | over a whole session, whatever is acked has been queued right before |
| Replication.WriteIsQueuedAndAcked | src/server.rs:267-427 | each put and delete of the stream for a known cache is queued, after as many as came before it, and its ack follows at once exactly if it asks for one |
| Replication.AsManyAcksAsAskedFor | src/server.rs:267-427 | over a whole session as many requests are queued as there are such writes, and as many acks are sent as they ask for |
| Replication.Server.Serve | src/server.rs:213-428 | after a whole session each cache has been asked exactly for the writes of the stream that name it, in order; every such write was queued and acked at once if it asked for that, and nothing else was |
| Replication.FollowersAgree | src/client.rs:388-676 | for any number of followers, writes and interleavings a follower's applied log is a prefix of the broadcast log, and two drained followers have asked their caches the same |
| Replication.LookupOnFollower | src/lib.rs:1510-1545 | through server and cache task of one follower, with lookups in between and whatever is dropped, a lookup finds the latest write that reached it or nothing |
| Replication.DrainedFollowersAnswerAlike | src/lib.rs:1510-1545 | two followers that have been sent everything answer a lookup alike, unless one has dropped the entry, and then with the leader's latest write |
| Replication.LeaderAgreesIff | src/lib.rs:1022-1034 | over any run of writes that can be told apart, the leader's own log is the broadcast log in the end if and only if no write overtook another |
| Replication.LeaderAgrees | src/lib.rs:1022-1034 | writes that do not overlap leave the leader's own caches with the broadcast log |
| Replication.OverlapAgreesIff | src/lib.rs:1022-1034 | two writes queued in the reverse order leave every lookup the same answer if and only if they do not leave one entry of one cache with different values |
| Replication.OverlapDiverges | src/lib.rs:1022-1034 | two overlapping puts of one entry can leave the leader with another value than everybody else |
| Startup.SplitHosts | src/lib.rs:1416-1427 | exactly the hosts whose address does not contain the hostname become clients, the last other one the own address |
| Startup.ContainsExactly | src/lib.rs:1416-1427 | a hostname matches wherever in the address it occurs |
| Startup.QuorumsAgreeIff | src/lib.rs:418-422 | for lists of any length, the 8-bit number that wraps included, when the two quorum numbers agree |
| Startup.SmallQuorumsAgreeIff | src/lib.rs:418-422 | below 512 hosts: exactly if one address contains the hostname, or two do and the number of hosts is odd |
| Startup.TwoMatchesOfFour | src/lib.rs:1416-1427 | a list for which they differ |
| Startup.QuorumIsMajorityIff | src/quorum.rs:214 | when each of the two numbers stands for more than half of the cluster |

## Left out

- QuorumHandler.Handler.HandleLeaderSwitchPriority: leaves out the timeout at `src/quorum.rs:896-898`, because the state has just been set to another one than `LeaderDead` there. The methods of the single arms have no rows, because each only ties the object to its arm of `Step`.
- WritePath.RemoteLookup: calls the decrement of zero an underflow and ends there; in a release build it wraps instead of panicking.
- WritePath.Host.InsertFromLeader: keeps the queue to all clients and the queues of the caches apart, because what matters of their relative order is in `Replication.LeaderAgreesIff`; failed sends on closed queues are not modelled.
- WriteSafety.AckedInsertHasMajority: takes as given that each client answers a write at most once; `Correlator.Callbacks.Run` proves it for the table of one client, which saves a write's channel once. That the static quorum is the handler's is decided by `Startup.QuorumsAgreeIff`.
- LeaderReach.FollowersReachTheirLeaderIff: says nothing about clusters of one host, which have no peers.
- Network.AnnouncementHasMajority: claims one voter only above three hosts, because the code counts acks and not distinct voters.
- Joining.StartupIsRaceIff: supposes that no message of another host has been handled yet, and that a client drains its queue and reports its connection in one go.
- Leaderless.AlwaysElectsIffFour: starts with one request of each host on its way to each other one; `SmallRaces.SmallRacesElect` allows repeated ones.
- Replication.Server.Apply: takes a request without id to get no ack; the source sends one without id, which the client drops (`src/client.rs:721-743`).
- LeaderWrites.InsertThroughLeader: takes a stream that the leader breaks off as an answer that never comes.
- Times, sleeps and random jitter: a timeout is an event that may come at any moment, a timestamp any integer.
- gRPC, TLS, authentication, reconnect loops and keepalives: connections are events, links are bags or queues of messages.
- Answers to lookups are correlated by cache name and entry, which is ambiguous; only the table for modifications is modelled.
- The `cached` crate: a cache is a map that may drop any entries at any time.
- Log output, health reports to other services, notifications of cache changes, error conversions, serialisation of values and the encoding of the ack level.
- Sessions whose stream could not be opened, where the request loop of the client keeps running (`src/client.rs:684-691`).
- Races in which some hosts do not stand, and candidacies with equal earliest timestamps: every comparison is strict, so ties are not resolved.
