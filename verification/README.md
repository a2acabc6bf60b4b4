# A verified model of the DERP relay and its endpoint management

This project models, in Dafny, the parts of the relay where several goroutines or several writers share
state, and proves what the code promises about them on every run.

**The relay server** (`internal/derpserver/derpserver.go`)

- `Connections`, `Registry`: connections of one key, duplicate sets, and the two duplicate policies.
- `Speakers`: who speaks for a key connected more than once, read off the events of a run.
- `FastPath`: the lock-free packet path against writers, one store per step.
- `Forwarders`: `clientsMesh` entries and `multiForwarder`, with its wrapping 8-bit numbers.
- `PeerGone`, `MeshView`, `Gauges`, `Tracker`: peer-gone subscriptions, watchers, gauges, and the peer tracker.
- `ServerState`, `ServerTheorems`, `ServerLaws`, `Server`: all of these as one state machine, its theorems, laws
  against ledgers of the events, and the server object whose methods implement the steps of that machine.
- `MeshDrain`, `MeshDelivery`: how a watcher's records reach its connection, with the slices sharing memory, and the
  server and that drain as one machine.
- `SendQueue`: packets on their way to one client.

**The endpoint manager** (`internal/endpoint`, `internal/portmap`)

- `PortMap`, `Validator`: which mappings are accepted, and which addresses pass.
- `Manager`, `ManagerTheorems`, `EndpointManager`: the automaton, its theorems over serialised runs, and the object.
- `Announcements`, `Outcomes`: what a held or published endpoint announces, and how each operation ends.
- `InterleavedPublish`, `StalePublish`: what is published while operations interleave, and whether it is still held.
- `Leases`, `SerialLeases`: who owns each mapping while operations interleave, and why the automaton is the same
  machine left alone.

**The policy document** (`internal/ops`)

- `Json`, `DerpMap`, `DerpMapTheorems`: the tree edit. `Policy`: its retry loop under ETags.

**Accounting**: `Traffic` (totals across restarts) and `Identity` (the asynchronous identity cache).

A state machine is a datatype, a step function and a `Run` over a sequence of events; a step that is not
enabled leaves the state alone, so theorems over `Run` hold for every interleaving. Where the source mutates
an object, a class carries its fields and each method is proved equal to a step.

Assumptions: connection ids are fresh, and each connection registers and unregisters once, after its send loop
has ended; forwarders are not nil and are not `multiForwarder`s themselves; listener ports and families are set
once before the first reconcile; a syncer is configured; a policy ETag changes with every write.

Findings, each with its exact condition:

- A `multiForwarder` that takes a 255th new forwarder numbers it 0, and prefers it over older ones when the
  preferred one leaves (`Forwarders.WrapPrefersNewest`, `Forwarders.AddRefinesIff`).
- Under `disableFighters` a new watcher is not told of a local key whose connections are all disabled
  (`ServerTheorems.FightersHideKey`, `MeshView.AddWatcherExactIff`). Nothing in the program sets `dupPolicy`, so
  this policy does not occur in it.
- The comment on `dupClientSet.last` says that it may be nil; after `removeClient` it never is while two or
  more members remain (`Connections.RemoveKeepsDup`).
- The drain in `onSendLoopDone` is meant to count every packet left over; a call that still passes the context
  test later strands its packet uncounted (`SendQueue.DrainMissesPacket`,
  `SendQueue.QuietStaysDrained`, `SendQueue.DrainCanMiss`).
- With an unbuffered queue a lone sender tail-drops (`SendQueue.UnbufferedQueueTailDrops`).
- Certificate names that are all blank pass the DERP probe without any probe being made
  (`Validator.BlankNameReachesDeadAddress`, `Validator.DeadAddressPassesIff`). The program refuses such a
  configuration, so only another caller of the exported validator can pass such a list.
- Publishing again changes the document once more if a field to be dropped occurs twice in the node, and a second
  withdraw is not a no-op if a node of the same name, or a malformed node, stood behind the first, or in a second
  region, region table or map of the same name (`DerpMapTheorems.PublishTwiceCanChange`,
  `DerpMapTheorems.PublishTwiceIff`, `DerpMapTheorems.WithdrawTwiceCanChange`,
  `DerpMapTheorems.WithdrawTakesSecondRegion`, `DerpMapTheorems.WithdrawTwiceIff`).
- A committed reconcile resets the failure count but not the pending retry of Withdraw, so a first failure after
  it may withdraw (`ManagerTheorems.CommitKeepsRetry`, `ManagerTheorems.WithdrawsExactlyWhenDue`).
- A failure reported without the operation lock can withdraw and release an endpoint that a Sync under way then
  publishes again (`StalePublish.SyncPublishesWithdrawn`, `StalePublish.StillHeldIff`).
- The same overlap lets Check hold an IPv4 address again whose mapping was released beside it
  (`Announcements.CheckHoldsReleasedMapping`). Left alone, operations hold IPv4 only together with the mapping it
  was committed with (`Announcements.RunInUse`).

## Model

| member | source | states |
|---|---|---|
| `Connections.TrimElements` | internal/derpserver/derpserver.go:338-343 | compacting a send history keeps exactly the members still in the set |
| `Connections.TrimFacts` | internal/derpserver/derpserver.go:338-343 | it leaves no equal neighbours, and ends with the last speaker that stays |
| `Connections.TrimFixpoint` | internal/derpserver/derpserver.go:338-343 | a history that is already clean is left as it is |
| `Connections.TrimIsCollapsed` | internal/derpserver/derpserver.go:338-343 | the one-pass compaction is: drop who left, then drop adjacent repetitions |
| `Connections.TrimTwice` | internal/derpserver/derpserver.go:338-343 | compacting for a smaller set can start from what an earlier removal left |
| `Connections.LatestTakesOver` | internal/derpserver/derpserver.go:348-350 | when the last speaker leaves, `last` is the latest entry of the history that stays |
| `Connections.RemoveKeepsDup` | internal/derpserver/derpserver.go:328-352 | removing a member keeps the duplicate-set invariant: history inside the set, no equal neighbours, at most one silent member, and while two or more remain `last` non-nil and in the set, moved only if it was the one that left (to whom, is `Connections.LatestTakesOver`) |
| `Connections.Compact` | internal/derpserver/derpserver.go:338-347 | the in-place loop leaves the trimmed history in front, clears the freed cells and touches nothing behind |
| `Connections.DupClientSet.Append` | internal/derpserver/derpserver.go:1750-1752 | appending to the send history keeps the rest of the set unchanged |
| `Connections.DupClientSet.RemoveClient` | internal/derpserver/derpserver.go:328-352 | the object's new members, last and history are those of the removal, and the result says whether the set shrank |
| `Registry.StoredSets` | internal/derpserver/derpserver.go:250-300 | a key is stored if and only if it has a live connection, its length is their number, and it is a duplicate set exactly for two or more |
| `Registry.RegisterKeeps` | internal/derpserver/derpserver.go:789-845 | registration keeps the registry invariant under both policies and makes the new connection active |
| `Registry.UnregisterKeeps` | internal/derpserver/derpserver.go:865-927 | removing a live connection never takes an "[unexpected]" branch nor the nil-remain panic, keeps the invariant, and lets the key leave exactly if it was the only connection |
| `Registry.SpeakKeeps` | internal/derpserver/derpserver.go:1715-1753 | the locked section of noteClientActivity keeps the invariant, the keys and who is duplicated (what it does to the history, is `Speakers.SpeakSet`) |
| `Registry.LastWriterHasActive` | internal/derpserver/derpserver.go:1725-1730 | under lastWriterIsActive every stored set has an active client, a live one, and it is `last` |
| `Registry.LastWriterWins` | internal/derpserver/derpserver.go:1698-1753 | under lastWriterIsActive whoever's activity was noted is the active connection of its key |
| `Speakers.SpeakSet` | internal/derpserver/derpserver.go:1715-1752 | after an activity the history ends with the speaker, and before it stands the history there was |
| `Speakers.HistoryIsHeard` | internal/derpserver/derpserver.go:308-313 | in every run a stored send history is the log of the key's speakers, read off the events: the first connection, each third or later joiner and each activity, without departed members and adjacent repetitions |
| `Speakers.LatestTakesOver` | internal/derpserver/derpserver.go:328-352 | in every run under lastWriterIsActive, when the active connection of three or more leaves, the one heard of last among those that stay becomes active |
| `Speakers.OthersLeavingKeepsActive` | internal/derpserver/derpserver.go:900-927 | somebody else's leaving does not move the active connection |
| `Speakers.ActiveIsEnabledLast` | internal/derpserver/derpserver.go:315-324 | in every run, under either policy, the active connection of a duplicate set is its `last` one unless that is disabled, and then there is none |
| `Speakers.FightDisables` | internal/derpserver/derpserver.go:1738-1750 | under disableFighters an activity disables exactly the set of a connection that had spoken and since whose last word another one spoke |
| `FastPath.RunGood` | internal/derpserver/derpserver.go:789-942 | in every interleaving of stores and loads, the stores made so far by the lock holder are the partial result of one atomic registry step, and a set outside the map has no active client |
| `FastPath.FastPathLinearizable` | internal/derpserver/derpserver.go:1333-1354 | a client returned by the fast path was, at the instant of its second load, the active connection of the set then stored under that key |
| `FastPath.UnlockedIsAtomic` | internal/derpserver/derpserver.go:789-942 | whenever the lock is free the memory equals the registry that moved by atomic steps only |
| `FastPath.RemovedSetStaysNil` | internal/derpserver/derpserver.go:889-893 | a clientSet taken out of the map keeps a nil active client for the rest of every run |
| `Forwarders.MultiForwarder.Add` | internal/derpserver/derpserver.go:2414-2424 | a new forwarder gets the highest number plus one modulo 256; the preferred one stays |
| `Forwarders.MultiForwarder.DeleteLocked` | internal/derpserver/derpserver.go:2426-2451 | deletion removes that forwarder only, prefers the lowest number if the preferred one left, and reports the last remaining one |
| `Forwarders.AddRefinesIff` | internal/derpserver/derpserver.go:2320-2345 | adding keeps the entry the image of the age-ordered list if and only if numbers remain |
| `Forwarders.RemoveRefines` | internal/derpserver/derpserver.go:2350-2386 | removing deletes from the list; the next oldest takes over; the last one leaves a single entry, a local mark or nothing |
| `Forwarders.RemoveNeverPanics` | internal/derpserver/derpserver.go:2362-2372 | a refined multiForwarder has at least two members, so the panic is out of reach |
| `Forwarders.RunRefinesList` | internal/derpserver/derpserver.go:2320-2451 | over every run with at most 254 new forwarders per multiForwarder the entry refines the duplicate-free list ordered by registration age, with the head preferred |
| `Forwarders.RunRegistered` | internal/derpserver/derpserver.go:2320-2451 | over every run, whatever the numbers, an entry has exactly the forwarders of the list as members |
| `Forwarders.WrapPrefersNewest` | internal/derpserver/derpserver.go:2414-2451 | a reachable run with one more ends with the newest forwarder preferred instead of the oldest |
| `PeerGone.NoteSendKeeps` | internal/derpserver/derpserver.go:2310-2316 | subscribing on the first packet of a source keeps the subscription invariant |
| `PeerGone.RemoveOneKeeps` | internal/derpserver/derpserver.go:967-978 | removing one subscription keeps it, and drops a handle set that becomes empty |
| `PeerGone.NotePeerGoneKeeps` | internal/derpserver/derpserver.go:984-1000 | launching the callbacks of a key keeps it |
| `PeerGone.ToldAtMostOnce` | internal/derpserver/derpserver.go:951-996 | a connection is launched at most one callback for a given source |
| `PeerGone.NoneSurvives` | internal/derpserver/derpserver.go:2023-2031 | no subscription of a connection is left once its send loop has ended |
| `PeerGone.SendComplete` | internal/derpserver/derpserver.go:2310-2316 | a source a send loop has seen is subscribed to, was told of as gone, or was unsubscribed by the ending loop; noting a packet keeps this |
| `PeerGone.RemoveComplete` | internal/derpserver/derpserver.go:967-978 | so does removing one subscription |
| `MeshView.BroadcastExact` | internal/derpserver/derpserver.go:852-862 | a broadcast moves the replayed view of every watcher by that one key |
| `MeshView.SnapshotReplay` | internal/derpserver/derpserver.go:1025-1036 | replaying the records queued for a watcher on top of what it knew adds exactly the keys with an active client, in any iteration order |
| `MeshView.AddWatcherExactIff` | internal/derpserver/derpserver.go:1011-1043 | enrolling, first time or again, gives the exact view if and only if the watcher already knew every stored key that has no active client |
| `Gauges.RegisterCounts` | internal/derpserver/derpserver.go:789-845 | after registering, every gauge counts the live connections and keys it is named for, and curClients - keys = dupClientConns - dupClientKeys |
| `Gauges.UnregisterCounts` | internal/derpserver/derpserver.go:865-942 | the same after unregistering |
| `Gauges.ThirdTestIff` | internal/derpserver/derpserver.go:2556-2560 | the third test of ConsistencyCheck passes if and only if no key is connected twice |
| `Tracker.RegisterAgreesIff` | internal/tracker/tracker.go:49-59 | registering keeps the two maps mutually inverse if and only if the id is not in use under another key |
| `Tracker.UnregisterAgrees` | internal/tracker/tracker.go:61-74 | unregistering keeps them inverse and leaves no peer without connections |
| `Tracker.TrackerAccounts` | internal/tracker/tracker.go:49-90 | over every event log with fresh ids the tracker holds exactly the open connections, and a peer's totals are all its traffic since it last had none |
| `Tracker.TrackerKeepsInfo` | internal/tracker/tracker.go:49-74 | each open connection is listed with the address and time it was registered with |
| `Tracker.PeerTracker.Register` | internal/tracker/tracker.go:49-59 | the object's maps move by the registration step |
| `Tracker.PeerTracker.Unregister` | internal/tracker/tracker.go:61-74 | the object's maps move by the unregistration step |
| `Tracker.PeerTracker.Receive` | internal/tracker/tracker.go:76-82 | bytes of a known connection go to its peer, others nowhere |
| `Tracker.PeerTracker.Send` | internal/tracker/tracker.go:84-90 | the same for bytes sent |
| `Tracker.PeerTracker.GetAll` | internal/tracker/tracker.go:98-128 | one entry for each peer, in ascending key order, each with all connections of that peer; indexing its connections is safe |
| `Tracker.ShowPeer` | internal/tracker/tracker.go:109-123 | the connections are listed by ascending id, the address is that of the highest id and the time that of the lowest |
| `Tracker.SortKeys` | internal/tracker/tracker.go:109-127 | sorting lists each element once in ascending order |
| `ServerState.StepKeeps` | internal/derpserver/derpserver.go:789-1043 | every locked section keeps the whole server invariant, under both policies |
| `ServerState.RunInvariant` | internal/derpserver/derpserver.go:789-1043 | it holds after every run |
| `ServerTheorems.StoredSetIsLiveConnections` | internal/derpserver/derpserver.go:250-352 | in every reachable state a stored set is the key's live connections with a sound duplicate set; under lastWriterIsActive its active client is `last` |
| `ServerTheorems.NoUnexpectedBranch` | internal/derpserver/derpserver.go:872-927 | no run reaches an "[unexpected]" branch of unregisterClient |
| `ServerTheorems.LookupSound` | internal/derpserver/derpserver.go:1333-1354 | lookupDest never answers no client with count 1; a client is the active, live and not disabled connection of that key, and without one the count is that of its connections; a forwarder is offered if and only if some are registered and the key is not local, and is made of exactly those; under lastWriterIsActive every local key has a client |
| `ServerTheorems.PresenceIff` | internal/derpserver/derpserver.go:833-835 | a key is in clientsMesh if and only if it has a local connection or a forwarder registered and not removed, and its entry is nil if and only if it is local with none registered |
| `ServerTheorems.CallbacksExactlyOnLeave` | internal/derpserver/derpserver.go:895-898 | peer-gone callbacks launch exactly in the steps in which a key leaves clientsMesh, for all its subscribers, and only after it left |
| `ServerTheorems.EachToldOnce` | internal/derpserver/derpserver.go:951-996 | over a whole run a connection is told at most once that a key has gone |
| `ServerTheorems.SubscriptionsLiveAndNonEmpty` | internal/derpserver/derpserver.go:967-978 | no stored handle set is empty and none belongs to a connection whose send loop has ended |
| `ServerTheorems.MeshEntryMoves` | internal/derpserver/derpserver.go:833-898 | each server step moves each clientsMesh entry by one forwarder step or not at all |
| `ServerTheorems.EntryHasRegistrations` | internal/derpserver/derpserver.go:2320-2386 | in every server run, with no bound on numbers, an entry has exactly the registered forwarders as members and a set has at least two |
| `ServerTheorems.EntryIsTable` | internal/derpserver/derpserver.go:2320-2386 | the entries that the bound speaks of are the table's own, after the events up to each operation on the key |
| `ServerTheorems.MeshTableRefinesList` | internal/derpserver/derpserver.go:2320-2386 | in every server run each clientsMesh entry refines the age-ordered list of its registrations, if its entries so far never took more than 254 new forwarders in one set |
| `ServerTheorems.WatchersSeeLocalKeys` | internal/derpserver/derpserver.go:841-862 | under lastWriterIsActive replaying everything enqueued for a watcher yields exactly the local keys, at every unlock |
| `ServerTheorems.FightersHideKey` | internal/derpserver/derpserver.go:1011-1043 | under disableFighters a reachable run gives a watcher a view without a local key |
| `ServerTheorems.GaugesCountLive` | internal/derpserver/derpserver.go:2470-2526 | in every reachable state the gauges equal counts over live connections |
| `ServerTheorems.TrackerHoldsLive` | internal/derpserver/derpserver.go:842-870 | in every reachable state the tracker holds exactly the live connections that are not mesh peers |
| `ServerTheorems.TrackerCountsTraffic` | internal/derpserver/derpserver.go:1364-1366 | in every run the server's tracker table is what its reports make it, so each peer's totals are all the traffic of its connections since it last had none |
| `ServerLaws.WrittenIsTold` | internal/derpserver/derpserver.go:951-996 | a connection that was written a packet of a key is from then on subscribed to it, or has been told that it has gone, or its send loop is ending |
| `ServerLaws.WatchersAreEnrolled` | internal/derpserver/derpserver.go:1011-1043 | the watchers are exactly the connections that asked and have not left, the server's own key excepted |
| `ServerLaws.LogFollowsEvents` | internal/derpserver/derpserver.go:841-899 | what is logged for a watcher is, record by record, every registration, every departure that leaves a key without a connection, and on enrolment the keys there are |
| `ServerLaws.CountersFollowEvents` | internal/derpserver/derpserver.go:811-825 | the home clients are those that last said so, and the total of duplicate connections counts the joins of a connected key |
| `Server.Server.RegisterClient` | internal/derpserver/derpserver.go:789-845 | the object moves by the registration step |
| `Server.Server.Join` | internal/derpserver/derpserver.go:795-831 | the set, the duplicate flags and the gauges after a connection joins |
| `Server.Server.UnregisterClient` | internal/derpserver/derpserver.go:865-942 | the object moves by the unregistration step |
| `Server.Server.LeaveDuplicates` | internal/derpserver/derpserver.go:900-927 | the duplicate branch shrinks the set and demotes it when one connection remains |
| `Server.Server.Broadcast` | internal/derpserver/derpserver.go:852-862 | every watcher gets one more record and nothing else changes |
| `Server.Server.NoteClientActivity` | internal/derpserver/derpserver.go:1698-1753 | the object moves by the activity step, lock-free tests included |
| `Server.Server.AddWatcher` | internal/derpserver/derpserver.go:1011-1043 | a watcher gets one record for each set with an active client, and our own key is ignored |
| `Server.Server.AddPacketForwarder` | internal/derpserver/derpserver.go:2320-2345 | one entry moves by an add step |
| `Server.Server.RemovePacketForwarder` | internal/derpserver/derpserver.go:2350-2386 | one entry moves by a remove step, with callbacks exactly if the key leaves |
| `Server.Server.LookupDest` | internal/derpserver/derpserver.go:1341-1354 | the locked path answers as the lookup that LookupSound is about |
| `Server.Server.ConsistencyCheck` | internal/derpserver/derpserver.go:2528-2562 | in a reachable state the first two tests never fail, and the third fails if and only if some key is connected twice |
| `MeshDrain.DrainLosesNothing` | internal/derpserver/derpserver.go:2209-2248 | in every interleaving, absent write errors, written then current batch then pending is everything enqueued, in order, and the batch being written never shares memory with the slice appended to |
| `MeshDrain.NoLostWakeup` | internal/derpserver/derpserver.go:1590-1598 | pending records imply a token, an outstanding request, a lock holder that has yet to spawn one, or a sender in the drain, also when the request runs before the unlock; at rest everything was written |
| `MeshDrain.WakesWereRequested` | internal/derpserver/derpserver.go:1590-1598 | wake-ups merge but never multiply: those taken, waiting and under way are at most the requests |
| `MeshDrain.RecyclesSmallBuffers` | internal/derpserver/derpserver.go:2209-2248 | the memory of the last batch is reused only if it has room for at most 16 records |
| `MeshDrain.SendMeshUpdates` | internal/derpserver/derpserver.go:2209-2248 | the drain loop left alone comes back with everything written |
| `MeshDelivery.DeliversTheLog` | internal/derpserver/derpserver.go:852-862 | in every interleaving of the server with a watcher's send loop, written, current batch and pending are at every unlock all that the server logged for the watcher, in order |
| `MeshDelivery.WatcherKnowsLocalKeys` | internal/derpserver/derpserver.go:841-862 | under lastWriterIsActive, at every unlock, a watcher that replays what was written and then what is on its way knows exactly the local keys; at rest what was written suffices |
| `SendQueue.ExactlyOnePlace` | internal/derpserver/derpserver.go:1523-1563 | in every interleaving a packet whose sendPkt returned is in exactly one of queued, in hand, written or dropped, with at most one reason |
| `SendQueue.DropsExplained` | internal/derpserver/derpserver.go:1523-1563 | in every interleaving each drop has the reason that fits: tail drops never entered the queue, head drops did, a packet that entered is counted as a write error or as disconnected only once the send loop is over, and one that did not as disconnected only if the client is gone; no call goes beyond a third attempt |
| `SendQueue.ThirdAttemptGivesUp` | internal/derpserver/derpserver.go:1534-1560 | a call retries after the first and second attempt and gives up at the third |
| `SendQueue.QueuesInOrder` | internal/derpserver/derpserver.go:2047-2120 | each queue is the tail of its enqueue sequence within its depth, and the packets written are an in-order selection of those that left |
| `SendQueue.LoneProducerNeverTailDrops` | internal/derpserver/derpserver.go:1534-1560 | with depth at least 1 a producer alone on its queue never tail-drops, whatever the send loop does |
| `SendQueue.UnbufferedQueueTailDrops` | internal/derpserver/derpserver.go:1534-1560 | with depth 0 it does |
| `SendQueue.QuietStaysDrained` | internal/derpserver/derpserver.go:2033-2044 | after the drain, with the context done and no call past its test, both queues stay empty forever |
| `SendQueue.DrainCanMiss` | internal/derpserver/derpserver.go:2033-2044 | otherwise a continuation leaves a packet in a queue nobody reads |
| `SendQueue.DrainMissesPacket` | internal/derpserver/derpserver.go:2023-2044 | a run from the start after which a packet whose call returned stays queued for good |
| `SendQueue.Outbox.SendPkt` | internal/derpserver/derpserver.go:1523-1563 | run alone: dropped if gone, else queued, else queued in place of the oldest, else (depth 0) tail-dropped |
| `SendQueue.CallAlone` | internal/derpserver/derpserver.go:1523-1563 | the interleaved machine, left to one call, ends the same way: after one select if gone, two if there is room, five if the oldest packet must go, nine without a buffer |
| `SendQueue.Outbox.OnSendLoopDone` | internal/derpserver/derpserver.go:2033-2044 | both queues end empty and each packet in them is counted once as disconnected |
| `PortMap.IsPublicIPv4` | internal/portmap/portmap.go:184-213 | an address is public if and only if it is, unmapped, an IPv4 address outside the fourteen prefixes; the global-unicast test never decides |
| `PortMap.PublicByOctets` | internal/portmap/portmap.go:184-213 | by octets: which dotted addresses are public, also in IPv4-mapped form |
| `PortMap.OnlyIPv4IsPublic` | internal/portmap/portmap.go:200-213 | no other address is |
| `PortMap.ValidateMapping` | internal/portmap/portmap.go:154-182 | a mapping is accepted if and only if every requested port is mapped on one public address, to the requested port where strict |
| `PortMap.MapPorts` | internal/portmap/portmap.go:111-136 | the first acceptable method wins, later ones are not asked, and every mapping rejected before it was released exactly once |
| `Validator.UniqueNames` | internal/endpoint/validator.go:175-190 | each trimmed non-empty name appears once, and nothing else |
| `Validator.TrimSpaceExact` | internal/endpoint/validator.go:175-190 | trimming takes off exactly the white space at both ends |
| `Validator.ValidateFamily` | internal/endpoint/validator.go:72-102 | a family passes if and only if every name answers on the DERP port and, with STUN on, the STUN port is known and answers |
| `Validator.Validate` | internal/endpoint/validator.go:24-70 | the result has one entry for each address, and fails, is degraded or passes as none, some or all pass |
| `Validator.DeadAddressPassesIff` | internal/endpoint/validator.go:72-86 | an address that answers no probe passes the DERP test if and only if names are configured and all are blank |
| `Validator.BlankNameReachesDeadAddress` | internal/endpoint/validator.go:72-102 | with one blank name an address where no DERP probe succeeds is reported reachable if and only if STUN is off or answers |
| `ManagerTheorems.RunInvariant` | internal/endpoint/manager.go:273-614 | every serialised run of reconcile, Check, Sync, a lost route and shutdown keeps the manager invariant |
| `ManagerTheorems.PublishedWasValidated` | internal/endpoint/manager.go:305-334 | over serialised runs: with validation on, each address passed to Publish was probed in the same operation on the ports published, and its family passed |
| `InterleavedPublish.PublishedWasValidated` | internal/endpoint/manager.go:305-334 | the same over every interleaving, the two callers that skip the operation lock included |
| `InterleavedPublish.HeldIPv6UsesLocalPorts` | internal/endpoint/manager.go:400-415 | over every interleaving a held endpoint has an address and announces IPv6 on the local ports only |
| `StalePublish.PublishesHeldOrNone` | internal/endpoint/manager.go:305-334 | over every interleaving, an operation about to publish an endpoint finds the manager holding that one or none |
| `StalePublish.StillHeldIff` | internal/endpoint/manager.go:720-731 | from the moment an operation has read or committed its endpoint, what it publishes is still held if and only if no releaseActive ran in between |
| `StalePublish.SyncPublishesWithdrawn` | internal/endpoint/manager.go:247-259 | a run in which Sync publishes an endpoint after the unlocked failure path withdrew and released it |
| `InterleavedPublish.PublisherHoldsLock` | internal/endpoint/manager.go:515-528 | over every interleaving only the one operation that has the lock is about to validate, commit or publish |
| `ManagerTheorems.HeldIPv6UsesLocalPorts` | internal/endpoint/manager.go:400-415 | over serialised runs a held endpoint has an address, announces IPv6 on the local ports only, has fewer than 3 failures and is not withdrawn |
| `ManagerTheorems.WithdrawsExactlyWhenDue` | internal/endpoint/manager.go:567-600 | Withdraw follows a failure if and only if it is the third since the last reset and the state was not withdrawn, or the last Withdraw failed and no passing or degraded Check or Sync came since |
| `ManagerTheorems.CommitKeepsRetry` | internal/endpoint/manager.go:482-504 | a run in which the first failure after a commit withdraws |
| `ManagerTheorems.CountersFollowHistory` | internal/endpoint/manager.go:482-504 | the failure count and the retry flag are functions of the history; a commit resets the first only |
| `ManagerTheorems.NoWithdrawWithoutValidation` | internal/endpoint/manager.go:567-600 | with validation off Withdraw is never called |
| `ManagerTheorems.PruningCovers` | internal/endpoint/manager.go:654-667 | what is left after pruning was covered by the validation, also when the ports go back to the local ones |
| `Announcements.HeldAnnouncesMapping` | internal/endpoint/manager.go:351-415 | over every interleaving: a held endpoint with a mapping in use has that mapping's outside address, its external DERP port, and its STUN lease's port or -1 |
| `Announcements.CommittedAnnounces` | internal/endpoint/manager.go:351-443 | over every interleaving: what is committed announces the mapping obtained, or discovered addresses on the local ports, in families configured and bound, with listeners ready and TLS set up |
| `Announcements.PublishedFromCommit` | internal/endpoint/manager.go:515-565 | over every interleaving: what is published is the last endpoint committed, or one family of it on the same ports or, for IPv6 alone, on the local ones |
| `Announcements.HeldFromCommit` | internal/endpoint/manager.go:482-565 | likewise what is held |
| `Announcements.GatheredFamilies` | internal/endpoint/manager.go:357-415 | IPv6 is announced whenever found, and so is IPv4 unless it is mapped to other ports than the local ones while IPv6 was found |
| `Announcements.RunInUse` | internal/endpoint/manager.go:482-565 | over serialised runs IPv4 is held together with the mapping it was committed with, and the network it was seen on |
| `Announcements.SerialHeldAnnounces` | internal/endpoint/manager.go:351-415 | over serialised runs a held IPv4 endpoint announces the mapping in use or, without one, in direct mode, the address discovered, on the local ports |
| `Announcements.CheckHoldsReleasedMapping` | internal/endpoint/manager.go:273-303 | a run in which Check holds the IPv4 address of a mapping released beside it |
| `Outcomes.ReconcileHolds` | internal/endpoint/manager.go:336-513 | a reconcile that goes through holds and publishes exactly its outcome, on the network it was found on, with no failures, and is ready if and only if every configured family was found, validation passed and the publish succeeded |
| `Outcomes.ReconcileFails` | internal/endpoint/manager.go:336-480 | otherwise it publishes nothing, counts a failure where validation is on, and keeps or lets go of what was held |
| `Outcomes.SyncPublishesIff` | internal/endpoint/manager.go:305-334 | Sync publishes, what it then holds, if and only if validation is off, passes, or leaves a family the certificate can cover |
| `Outcomes.CheckPublishesIff` | internal/endpoint/manager.go:273-303 | Check publishes if and only if it has pruned; a failed check with validation off changes nothing but the recorded result |
| `Outcomes.RunShows` | internal/endpoint/manager.go:567-614 | between operations no transient state shows; ready means held without failures; failures show as limited, from the third on as withdrawn; without validation they show as stale while a mapping is in use and as broken otherwise; a network is remembered only with a mapping |
| `EndpointManager.EndpointManager.ReconcileNow` | internal/endpoint/manager.go:336-513 | the object moves by the reconcile step and keeps the invariant whatever the outside world answers |
| `EndpointManager.EndpointManager.FindCandidate` | internal/endpoint/manager.go:351-480 | the candidate, the released mappings and the validation of one reconcile |
| `EndpointManager.EndpointManager.EquipCandidate` | internal/endpoint/manager.go:416-443 | without an address, TLS, a certificate or a readable route the reconcile gives up and its mapping is released |
| `EndpointManager.EndpointManager.VetCandidate` | internal/endpoint/manager.go:444-480 | validation prunes the candidate and releases a mapping whose family failed |
| `EndpointManager.EndpointManager.AdoptCandidate` | internal/endpoint/manager.go:482-513 | the commit, the release of a replaced mapping unless renewed in place, and the publish |
| `EndpointManager.EndpointManager.CheckNow` | internal/endpoint/manager.go:273-303 | the object moves by the Check step and keeps the invariant |
| `EndpointManager.EndpointManager.SyncNow` | internal/endpoint/manager.go:305-334 | the object moves by the Sync step and keeps the invariant |
| `EndpointManager.EndpointManager.ApplyPartialValidation` | internal/endpoint/manager.go:530-565 | the object moves by the pruning step |
| `EndpointManager.EndpointManager.NoteFailed` | internal/endpoint/manager.go:567-600 | the object moves by the failure step |
| `EndpointManager.EndpointManager.ResetValidationFailures` | internal/endpoint/manager.go:602-614 | the count and the pending retry are cleared, and a held endpoint becomes ready if asked |
| `EndpointManager.EndpointManager.ReleaseHeld` | internal/endpoint/manager.go:720-731 | endpoint and mapping are let go and the mapping is released |
| `Leases.LeaseOwnership` | internal/endpoint/manager.go:336-513 | in every interleaving, also with the two callers that skip the operation lock, a mapping is released at most once, and until then is held by one running operation, active, or superseded by a mapping with identical leases, never two of these |
| `Leases.OneOwner` | internal/endpoint/manager.go:530-565 | no two running operations hold the same mapping |
| `Leases.SupersededByRenewal` | internal/endpoint/manager.go:505-507 | a mapping is superseded only while active, by a commit with the same leases on the same network |
| `Leases.CommitFreesUnlessRenewed` | internal/endpoint/manager.go:505-507 | a commit frees the mapping it replaces unless method, leases and network are the same |
| `SerialLeases.SoloOp` | internal/endpoint/manager.go:273-614 | an operation of the interleaved machine that is left alone ends in exactly the state of the one-piece operation |
| `SerialLeases.SerialIsInterleaved` | internal/endpoint/manager.go:269-334 | every serialised run is one of the interleaved runs |
| `SerialLeases.SerialLeaseOwnership` | internal/endpoint/manager.go:505-507 | in every serialised run a mapping is released at most once, an active one never, and one neither active nor released was followed by another with the same leases |
| `Json.ObjectMember` | internal/ops/derpmap.go:236-244 | the lookup loop returns the first member whose name matches under case folding |
| `Json.SameIff` | internal/ops/derpmap.go:236-244 | two names match if and only if they are equally long and their letters are pairwise the same up to case, the long s and the Kelvin sign included |
| `Json.DoFrame` | internal/ops/derpmap.go:246-286 | one edit leaves every other member unchanged and in order |
| `Json.DoGet` | internal/ops/derpmap.go:246-286 | a value put is what a lookup then finds, and other names find what they found |
| `Json.ApplyTwiceIff` | internal/ops/derpmap.go:254-286 | repeating a list of edits changes nothing if and only if each dropped name occurred at most once |
| `DerpMap.FindNode` | internal/ops/derpmap.go:308-327 | the index found is that of this node, and no element before it is this node or malformed |
| `DerpMap.FindNodeLoop` | internal/ops/derpmap.go:308-327 | the loop computes that index |
| `DerpMapTheorems.PublishFrame` | internal/ops/derpmap.go:105-234 | publish keeps every unmanaged member, region, sibling node and unknown node field, unchanged and in order, for every document |
| `DerpMapTheorems.PublishSucceedsIff` | internal/ops/derpmap.go:105-202 | publish succeeds if and only if nothing on the path is of the wrong kind and an existing region carries this number as its id and has, as its first node of this name with nothing malformed before it, one that carries it too |
| `DerpMapTheorems.WithdrawSucceedsIff` | internal/ops/derpmap.go:114-202 | the same for withdraw: an existing region carries this id, and its node of this name, if there is one, too |
| `DerpMapTheorems.ChangesOnlyOwn` | internal/ops/derpmap.go:147-202 | a region or node is only ever changed if it carries this id |
| `DerpMapTheorems.PublishSays` | internal/ops/derpmap.go:192-234 | the document then has the region with the configured code, name and id, and in it this node at its place or at the end |
| `DerpMapTheorems.PublishFresh` | internal/ops/derpmap.go:105-234 | publishing into an empty document writes exactly these members, in this order |
| `DerpMapTheorems.PutAt` | internal/ops/derpmap.go:246-286 | a value is put at the first member of its name, or at the end, and nothing else moves |
| `DerpMapTheorems.DropAt` | internal/ops/derpmap.go:254-259 | dropping takes out the first member of that name |
| `DerpMapTheorems.NodeSays` | internal/ops/derpmap.go:204-231 | the published node carries the configured identity, ports and addresses; a dropped field is gone if and only if it occurred at most once |
| `DerpMapTheorems.NoNodeAddedToForeignRegion` | internal/ops/derpmap.go:194-202 | in a region that existed, publish rewrites its own node in place and adds none |
| `DerpMapTheorems.PublishTwiceIff` | internal/ops/derpmap.go:105-234 | publishing again succeeds, and reports unchanged if and only if each dropped field occurred at most once |
| `DerpMapTheorems.PublishTwiceCanChange` | internal/ops/derpmap.go:210-212 | a document on which the second publish changes something |
| `DerpMapTheorems.WithdrawUndoesPublish` | internal/ops/derpmap.go:114-190 | if the region was absent, withdraw after publish gives the document back without an empty Regions and then an empty derpMap |
| `DerpMapTheorems.WithdrawFrame` | internal/ops/derpmap.go:171-190 | withdraw keeps every member but its own at every level, unchanged and in order; other nodes of the region, other regions and other map members stay, and a region table or map that goes had nothing else in it |
| `DerpMapTheorems.WithdrawTwiceIff` | internal/ops/derpmap.go:167-190 | for every document, a second withdraw succeeds unchanged if and only if nothing was withdrawn or what stood behind was clear: the nodes behind or, if the region went, what then comes first under the names on the way |
| `DerpMapTheorems.UniquePathClears` | internal/ops/derpmap.go:236-244 | where no name on the way occurs twice, only the nodes behind matter |
| `DerpMapTheorems.WithdrawTakesSecondRegion` | internal/ops/derpmap.go:138-190 | a document with the region twice, on which the second withdraw removes the second one |
| `DerpMapTheorems.WithdrawTwiceCanChange` | internal/ops/derpmap.go:167-190 | a document with two nodes of this name, on which the second withdraw removes the second one |
| `Policy.PolicyServer.Write` | internal/ops/tailnet_api.go:151-163 | a write takes effect only if the document read is still the last, and then replaces it by exactly its patch, even if the reply is lost |
| `Policy.TryOnce` | internal/ops/derpmap.go:71-96 | one attempt reads, patches and writes, and says which of these decided |
| `Policy.Reconcile` | internal/ops/derpmap.go:63-98 | every own write is the patch of its predecessor, at most 3 are tried and one stored, each try but the last met a conflict, the replies decide how the call ends, success means a fixed point or a just-patched document during the call, a refusal names the document, and the final error is unreachable |
| `Policy.WrittenIsFixedPointIff` | internal/ops/derpmap.go:71-96 | what a successful write leaves is a fixed point if and only if the replaced document had no field to drop twice, for a publish, or was clear behind what was withdrawn, for a withdraw |
| `Traffic.Persister.Load` | internal/traffic/traffic.go:42-67 | after Load persisted is the file's value and the offset is the session |
| `Traffic.Persister.Save` | internal/traffic/traffic.go:69-114 | persisted minus offset never changes; the file changes exactly if the write succeeds |
| `Traffic.Persister.Total` | internal/traffic/traffic.go:141-156 | the total is persisted minus offset plus the session |
| `Traffic.TotalsByCounter` | internal/traffic/traffic.go:141-156 | each of the three counters adds up by itself |
| `Traffic.NothingLostOrCountedTwice` | internal/traffic/traffic.go:69-156 | in every interleaving of successful, failed and stale saves the total is the loaded value plus the session's growth, and the file that of the last stored save |
| `Traffic.RestartsTelescope` | internal/traffic/traffic.go:42-114 | across restarts the file grows by what each life had counted at its last stored save |
| `Traffic.SavedLivesAddUp` | internal/traffic/traffic.go:116-139 | if each life ends in a stored save of its final counters, the file is the sum of all sessions |
| `Identity.ResolverInvariant` | internal/ops/peers.go:91-133 | in every interleaving at most 2 lookups are in flight, a pending entry's creating lookup has yet to store, and a cached identity was found for that key |
| `Identity.NoStuckKey` | internal/ops/peers.go:103-122 | no key is pending once its lookups have returned, even if pruned and requested again |
| `Identity.AnswersFor` | internal/ops/peers.go:91-122 | a result is answered for 300 seconds if an identity was found and for 60 if not; after that a lookup starts if fewer than two are under way |
| `Identity.LateResultIgnored` | internal/ops/peers.go:107-121 | a result for a key that has one already, or was pruned, changes nothing |
| `Identity.Resolver.ResolveKey` | internal/ops/peers.go:91-104 | a known key is answered from the cache, an unknown one starts a lookup if a slot is free |
| `Identity.Resolver.StoreResult` | internal/ops/peers.go:107-121 | a lookup's result replaces a pending entry only, and lives five minutes if found and one if not |
| `Identity.Resolver.PruneTo` | internal/ops/peers.go:125-133 | exactly the active keys stay, unchanged |

## Left out

- Sockets, TLS, HTTP, frame encoding and write deadlines: a read is an event and a write succeeds or fails.
- `keyOfAddr`, and the address and flags in presence records: written beside the modelled fields and read by nothing modelled.
- Histograms, sampled rates, average queue time, unique-sender estimates and log output.
- Wrap-around of 64-bit counters: counters are unbounded integers.
- Disco detection: a flag of the packet that selects its queue.
- HuJSON text, comments and white space: documents are trees, and parsing and packing are taken as inverse.
- Editing a policy document in place through pointers: the edit is a function from tree to tree, so aliasing inside one document is not captured.
- Unicode case folding beyond what can equal an ASCII name.
- A publish without an endpoint: the callers always pass one.
- Method labels, lease times, status messages and the schedule of maintain: any operation may run at any time.
- Listener bindings that change later, and a manager without a syncer.
- The endpoint manager's withdraw automaton when the unlocked failure path overlaps another operation: it is proved for serialised runs.
- `Server.Server` holds duplicate sets and forwarder sets as values: their update in place is proved on `DupClientSet` and `MultiForwarder`, not through the server's maps.
- Gateway protocols, route and interface discovery: their answers are inputs.
- Identity fields and device lists: an identity is a value.
- Configuration, admission checks, device management handlers and certificate files: plumbing or foreign calls.
- `Policy.Reconcile`: the delay between attempts is not modelled, and an empty ETag is excluded.
