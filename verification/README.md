# Verified model of the cluster's distributed algorithms

The repository is a distributed file system: storage nodes and an elected master, with files placed by
consistent hashing and critical sections guarded by a distributed lock. This project models the algorithms
the rest stands on and proves what they are for:

- **Distributed lock.** Lamport clocks, sorted request queues and acks (`Uuids`, `Lamport`, `LockState`,
  `LockNode`), then a state machine of any number of nodes, resources and FIFO links (`LockSystem`). Over
  every run: at most one node inside with an unexpired request, at most one at all without expiry, grants in
  timestamp order, and equal queues once the links are empty (`LockTheorems`, `LockQuiescence`; their
  invariants are in `LockPairs`, `LockEffects`, `LockSafety`, `LockDelivery`). `LockStamps` says what each event does to its node's clock, and
  `LockCausality` proves the clock condition for the happened-before relation of a run, says exactly where it
  fails, and derives the order of the grants from it.
  `LockRaces` and `LockStaleAck` hold the runs that show the conditions of exclusion are needed,
  `LockExclusion` makes an if-and-only-if of them, and `LockPrudence` derives the callers' discipline from
  what a caller can see. `LockSweep` says what the sweep of expired requests leaves and tells the peers,
  `LockHandlers` what every other operation and handler does, field by field and message by message.
- **Deadlock detection.** The depth-first cycle search (`CycleSearch`), what the wait-for graph records over
  every run (`WaitFor`), the choice of a victim and when its abort breaks the cycle (`Deadlock`, `WaitFor`),
  and when round after round of this comes to an end (`DeadlockRounds`).
- **Bully election.** The elector object (`Election`, `BullyElection`) and a timed state machine with
  arbitrary delays (`ElectionSystem`, `ElectionTheorems`, `ElectionRaces`).
- **Consistent-hash ring.** The ring object (`HashRing`, `Placement`), lookups in clockwise order with
  colliding hashes (`RingOrder`), independence of history and minimal disruption (`RingChanges`), and the keys
  of the virtual nodes, which never collide (`VirtualKeys`).
- **File index and repair plans** on top of the ring (`FileIndex`, `MasterIndex`).
- **Byte frames and transfers.** Headers, requests and responses (`StreamFrames`, `ShiftOr`,
  `StreamProtocol`), chunked upload from slices to storage (`Upload`, `UploadHandlers`), what each request is
  answered and that a complete upload succeeds (`UploadAnswers`), from the storage nodes'
  acknowledgements to the index (`UploadIndex`), and the download copier (`Download`).

Objects whose methods update fields are classes; each method is proved against a function of the old state,
and the theorems are about those functions. Messages are returned by the method that sends them.

## Assumptions

- Lock runs: a handler together with taking its message is one step; links are FIFO and deliver each message
  once; membership is fixed and complete; one wall clock never runs backwards. A caller asks for a resource
  only when it has no own entry queued and the acks to its last request are in (`LockSystem.MayRequest`):
  acks carry no request id, and `LockStaleAck.TwoInsideByStaleAck` is a run without that discipline in which
  two nodes are inside. A caller that asks again only once its entry is gone and every peer has acked its
  last request keeps the discipline (`LockPrudence.PrudentIsDisciplined`). The code itself enforces neither.
  Messages outside the lock protocol, such as heartbeats, travel on the same links; traffic with clients only
  moves the logical clocks. A broadcast reaches the peers in any order, each copy with its own logical time.
- Election runs: the live set and the peer tables are fixed, every live node is in every table with its
  priority, a token put into `okChan` or `leaderCancelChan` is consumed at once, and timers fire at their
  deadline. Delays are arbitrary; messages to dead peers are lost. A node may start an election at any time.
- The ring: CRC32 is any function to 32 bits. Results about placement changes and history ask for pairwise
  distinct virtual positions of the nodes involved; lookups and sortedness do not.
- SHA-256 and lower-casing in the copier are any functions. Go strings are byte sequences in the frames.

## Where the code and its documentation disagree

- dokumentacja.tex:260-263 promises at most one node in a critical section. With the 30 s expiry that is
  false (`LockRaces.TwoInsideAfterExpiry`); it is true of nodes whose own request is unexpired, and true of
  all nodes exactly without expiry and with disciplined callers (`LockExclusion.ExclusionIff`).
- dokumentacja.tex:255-257 states the clock condition for all events. A node that tries to enter twice with
  nothing queued has two events of one logical time (`LockCausality.EnterTwice`). The condition holds of all
  pairs exactly when it is asked of pairs whose later event moves its clock (`ClockConditionIff`), and an event
  does so exactly when it is a request or a receive, or has something to send and a peer to send it to
  (`LockStamps.TicksIff`).
- dokumentacja.tex:300-301 says that the victim has the lowest priority in the cycle and that its abort
  breaks the cycle. The code looks at the whole path, lead-in included: the victim is on the cycle, and of
  lowest priority there, exactly when some candidate on the cycle has a lower priority than every candidate of
  the lead-in (`Deadlock.VictimOnCycleIff`), and the abort breaks the cycle exactly when the victim moreover is
  not the master itself and has a request queued (`WaitFor.AbortBreaksCycleIff`). A victim for whom nobody
  waits is picked again in every round and the deadlock stays (`DeadlockRounds.LeadInStays`).
- The comment at backend/dfs/streaming/protocol.go:108 gives 64 bytes for a download request; the code
  sends 65.
- `handleCoordinator` uses priority -1 for an unknown sender, so a live node of priority -1 can demote the
  highest one (`ElectionRaces.NeverDemotedIff`).
- A storage node does not check that all announced bytes of an upload came (`Upload.CutConnectionStored`), and
  acknowledges what it has; the master then lists it (`UploadIndex.ListedWithoutFile`).

## Model

| member | source | states |
|---|---|---|
| Uuids.TextOrderIsByteOrder | backend/dfs/common/lamport.go:17-25 | The tie-break on the 36-character text of two ids orders them as their 16 bytes. |
| Lamport.CompareLockRequestsTotal | backend/dfs/common/lamport.go:11-43 | The queue comparison is the timestamp comparison; of two requests exactly one is first unless time and node are equal, and swapping the arguments negates the result. |
| Lamport.CompareLockRequestsTransitive | backend/dfs/common/lamport.go:38-43 | The queue order is transitive. |
| Lamport.CompareLockRequestsOrder | backend/dfs/common/lamport.go:38-43 | The comparison meets what sort.SliceStable asks of it. |
| Sorting.SliceStableSorted | backend/dfs/node/node.go:1546-1549 | The sort used for queues and ring leaves a sorted slice for any strict weak order. |
| Sorting.SliceStablePermutes | backend/dfs/node/node.go:1546-1549 | The sort only reorders. |
| Sorting.SortedUnchanged | backend/dfs/node/node.go:1546-1549 | The sort is stable: a sorted slice is left as it is. |
| Sorting.AppendAndSort | backend/dfs/node/node.go:1544-1549 | Appending to a sorted queue and sorting is one insertion behind the entries not after it. |
| LockNode.Node.IncrementAndGetLogicalTime | backend/dfs/node/node.go:1520-1525 | The clock moves by one and its new value is returned. |
| LockNode.Node.UpdateAndGetLogicalTime | backend/dfs/node/node.go:1527-1532 | After a receive the clock is ahead of the message and of its old value. |
| LockNode.Node.SendMessage | backend/dfs/node/node.go:1084-1120 | One message with a fresh logical time. |
| LockNode.Node.BroadcastMessage | backend/dfs/node/node.go:1122-1139 | Every peer gets the message once, each with its own logical time, in some order. |
| LockNode.Node.RequestLock | backend/dfs/node/node.go:1534-1561 | The request is stamped, queued in order, the acks reset, and the request broadcast. |
| LockNode.Node.RemoveFirstRequest | backend/dfs/node/node.go:1565-1570 | The loop cuts out the first entry of the node and nothing else. |
| LockNode.Node.ReleaseLock | backend/dfs/node/node.go:1563-1583 | The own entry and the acks go, and the release is broadcast. |
| LockNode.Node.CanEnterCriticalSection | backend/dfs/node/node.go:1585-1629 | Expired heads are dropped; the answer is whether the head is own and every peer has acked. |
| LockNode.Node.EnterCriticalSection | backend/dfs/node/node.go:1631-1645 | The acquisition is broadcast exactly when the node may enter. |
| LockNode.Node.HandleLockRequest | backend/dfs/node/node.go:399-441 | The request is queued in order, a wait-for edge to another recorded holder is added, and a known sender is acked. |
| LockNode.Node.HandleLockAck | backend/dfs/node/node.go:443-458 | The sender joins the acks of the resource. |
| LockNode.Node.HandleLockAcquired | backend/dfs/node/node.go:460-470 | The sender becomes the recorded holder. |
| LockNode.Node.HandleLockRelease | backend/dfs/node/node.go:472-501 | All edges to the sender, the recorded holder of the resource and the sender's first entry go. |
| LockNode.Node.HandleLockAbort | backend/dfs/node/node.go:503-524 | Exactly the resources with an own entry are released, each once. |
| LockNode.Node.SweepOneQueue | backend/dfs/node/node.go:1044-1056 | One queue loses exactly its expired entries; each own one asks for a release. |
| LockNode.Node.CheckLocksTimeouts | backend/dfs/node/node.go:1038-1070 | Every queue is swept once, then the releases are broadcast. |
| LockSweep.SweepTells | backend/dfs/node/node.go:1038-1070 | In any state and order, each peer's link gains exactly one release of a resource for each own expired entry on it and nothing else; the queues keep what is not expired, and the acks go where an own entry was. |
| LockSweep.ExpiryIsStrict | backend/dfs/node/node.go:1044-1046 | A request of exactly 30 seconds has not expired, an older one has. |
| LockSweep.UnexpiredKeeps | backend/dfs/node/node.go:1044-1056 | Of a swept queue each entry that is not expired is left, as often as it was there and in the same order, and no other. |
| LockSweep.SweepForgotten | backend/dfs/node/node.go:472-501 | A peer in any state that has taken what a sweep sent records no holder of a resource with an own expired entry and nobody waiting for the sender. |
| LockSweep.HeadsDropped | backend/dfs/node/node.go:1588-1606 | Exactly the expired entries at the head go; the acks of the resource go if one of them was own; nothing else changes. |
| LockHandlers.ReceivedIsLeast | backend/dfs/node/node.go:1527-1532 | After a receive the clock is the least value above its own and that of the message. |
| LockHandlers.BroadcastTimes | backend/dfs/node/node.go:1122-1139 | A broadcast takes the next logical times one by one in the order in which the peers are served. |
| LockHandlers.RequestMeans | backend/dfs/node/node.go:1534-1561 | The request carries the next logical time and the present one, joins the sorted own queue and nothing else, forgets the acks, and goes once to each peer. |
| LockHandlers.ReleaseMeans | backend/dfs/node/node.go:1563-1583 | Exactly the first own entry and the acks of the resource go, and each peer is sent one release. |
| LockHandlers.EnterMeans | backend/dfs/node/node.go:1585-1645 | With the expired heads gone, each peer is told once if the head is own and the acks are as many as the peers; otherwise nobody is told anything. |
| LockHandlers.HandleRequestAnswer | backend/dfs/node/node.go:425-440 | A known sender gets one ack, an unknown one nothing. |
| LockHandlers.HandleRequestQueues | backend/dfs/node/node.go:406-411 | The request joins the sorted queue of its resource and no other. |
| LockHandlers.HandleRequestEdges | backend/dfs/node/node.go:413-421 | One edge is added if another node is the recorded holder, and no other edge changes. |
| LockHandlers.HandleAckMeans | backend/dfs/node/node.go:443-470 | An ack adds its sender to the acks of its resource, an announcement names the holder, and nothing else changes. |
| LockHandlers.HandleReleaseMeans | backend/dfs/node/node.go:472-501 | Exactly the sender's first entry, the recorded holder of the resource and the edges to the sender go. |
| LockHandlers.AbortMeans | backend/dfs/node/node.go:503-524 | Of exactly the resources with an own entry the first own entry and the acks go and each peer is told one release; other resources stay and nobody is told of them. |
| LockNode.Node.SelectVictim | backend/dfs/node/node.go:1203-1222 | The first node of lowest priority on the whole path, among the known ones below the largest int, or the nil id. |
| LockNode.Node.SendAbort | backend/dfs/node/node.go:1224-1243 | The node aborts itself, tells a known peer, or does nothing. |
| LockNode.Node.CheckDeadlocks | backend/dfs/node/node.go:1072-1082 | Only a master with a cyclic graph acts, and it aborts the victim of a path that closes a cycle: itself by releasing each own resource once, a known peer by one message, an unknown node not at all. |
| LockState.RemoveFirstAt | backend/dfs/node/node.go:1566-1570 | Removing the first entry of a node is the cut at its place. |
| LockTheorems.AtMostOneUnexpiredInside | backend/dfs/node/node.go:1038-1070 | In every run at most one node has entered and not released a resource while its own request is unexpired, however head drops, sweeps, aborts and releases interleave. |
| LockTheorems.AtMostOneInside | dokumentacja.tex:260-263 | Without expiry at most one node is between entering and releasing, in every run. |
| LockTheorems.GrantsAscend | backend/dfs/node/node.go:1585-1645 | The requests granted on a resource have strictly increasing time and node in every run, expiry included. |
| LockTheorems.StepInv | backend/dfs/node/node.go:399-524 | Every step of the system keeps the invariant behind mutual exclusion. |
| LockRaces.TwoInsideAfterExpiry | backend/dfs/node/node.go:1588-1606 | For every expiry a run with two nodes inside, the first with an expired request. |
| LockStaleAck.TwoInsideByStaleAck | backend/dfs/node/node.go:452-455 | Without expiry, a run of steps of the two nodes alone that ends with both inside, because an old ack counts for a new request. |
| LockExclusion.ExclusionIff | dokumentacja.tex:260-263 | The documented exclusion of all nodes holds in every run exactly when requests never expire and callers are disciplined; without either there is a run with two nodes inside. |
| LockPrudence.PrudentIsDisciplined | backend/dfs/node/node.go:443-458 | Callers that ask again only with no own entry queued and after an ack of every peer to their last request keep, in every run, the discipline that speaks of the links. |
| LockStamps.TicksIff | backend/dfs/node/node.go:1520-1532 | An event moves the clock of its node exactly when it is a request or a receive or has something to send and a peer: an entry that is allowed, a release, expired or own entries to release. |
| LockCausality.ClockCondition | dokumentacja.tex:255-258 | In every run, disciplined or not, an event that happened before another, at the node or through messages, has no larger logical time, and the smaller one if the other moves its clock. |
| LockCausality.EnterTwice | backend/dfs/node/node.go:1631-1645 | From every initial state, for every node, two attempts to enter with nothing queued happen one before the other and have the same logical time. |
| LockCausality.ClockConditionIff | dokumentacja.tex:255-258 | The clock condition holds of all pairs of all runs exactly when it is asked only of pairs whose later event moves its clock. |
| LockCausality.HandledBefore | backend/dfs/node/node.go:1520-1551 | In every run, disciplined or not, a request made after another was handled, by any chain of events and messages between nodes, has the larger logical time. |
| LockCausality.CausalOrderOfGrants | lamport-timestamp.txt:7-16 | Of two requests on a resource the one made before the other, through any chain of events and messages between nodes, stands before it among the grants, if both are granted. |
| LockCausality.NoOvertaking | backend/dfs/node/node.go:1520-1551 | A request made after another was handled, by any such chain, the other still queued or not, stands behind it among the grants, if both are granted. |
| LockQuiescence.QueuesDifferByMessagesInFlight | backend/dfs/node/node.go:406-440 | Replaying the messages in flight from `i` to `j` on the entries of `i` at `j` gives the entries of `i` at `i`, in every run without expiry. |
| LockQuiescence.QuietClusterAgrees | backend/dfs/node/node.go:1608-1628 | With empty links all queues of a resource are the same sorted sequence and exactly the owner of its head may enter. |
| CycleSearch.HasCycle | backend/dfs/common/waitfor-graph.go:7-28 | True exactly when the graph has a directed cycle; the path follows edges, its last node is an earlier one, and nothing else repeats. |
| CycleSearch.Search.Dfs | backend/dfs/common/waitfor-graph.go:30-47 | A call that finds nothing leaves the node finished after everything it can reach; a call that finds something returns a path that closes a cycle. |
| CycleSearch.OrderedIsAcyclic | backend/dfs/common/waitfor-graph.go:42-46 | A graph whose finished nodes only lead to nodes finished earlier has no cycle. |
| WaitFor.WatchAllHistory | backend/dfs/node/node.go:406-492 | For any messages handled, holders and edges are what the history of announcements, requests and releases says. |
| WaitFor.WaitForHistory | backend/dfs/node/node.go:406-492 | In every run an edge from `w` to `h` is there exactly when a request of `w` was handled while `h`, not `w`, was the recorded holder and no release from `h` since; nobody waits for itself. |
| WaitFor.ReleaseAllView | backend/dfs/node/node.go:503-524 | A node that aborts keeps its own wait-for graph, so a master that picks itself finds the cycle again. |
| WaitFor.AbortBreaksCycleIff | backend/dfs/node/node.go:1203-1243 | The abort of the chosen victim breaks the found cycle exactly when some candidate on the cycle has a lower priority than every candidate of the lead-in, the victim is not the master itself and it has a request queued. |
| Deadlock.CycleSurvivesIff | backend/dfs/node/node.go:482-490 | Removing the edges to a node breaks exactly the cycles through it. |
| Deadlock.ReleaseAddsNoCycle | backend/dfs/node/node.go:472-501 | After a release is handled every cycle was there before and avoids the sender. |
| Deadlock.VictimOnCycleIff | backend/dfs/node/node.go:1203-1222 | The chosen victim is a candidate on the cycle, and then one of lowest priority there, exactly when some candidate on the cycle has a lower priority than every candidate of the lead-in. |
| Deadlock.VictimBreaksCycleIff | backend/dfs/node/node.go:1203-1222 | The release of the chosen victim breaks the found cycle under that same condition on path and priorities and no other. |
| Deadlock.LeadInVictim | backend/dfs/node/node.go:1203-1222 | A concrete path whose victim is on the lead-in: its release leaves a cycle. |
| Deadlock.MasterVictimIff | backend/dfs/node/node.go:1203-1222 | On a path with the master, it is the victim exactly when its own priority is at most that of every peer there and below that of those before it; otherwise the victim is the lowest peer, of no higher priority. |
| Deadlock.RoundsEndAcyclic | backend/dfs/node/node.go:1072-1082 | Rounds of detection and release with victims on the cycle part number at most as many as the nodes, and rounds are over exactly when the graph is acyclic. |
| DeadlockRounds.EffectiveRoundsEnd | backend/dfs/node/node.go:1072-1082 | Rounds of detection, abort and release whose victim is on the cycle, is not the master and has a request queued number at most as many as the nodes that wait, and after that many the graph is acyclic. |
| DeadlockRounds.RoundRepeatsIff | backend/dfs/node/node.go:1203-1243 | A round leaves the graph as it is exactly when the victim is the master or no peer, has nothing to release, or nobody waits for it; the same path then closes a cycle again and has the same victim and no other. |
| DeadlockRounds.LeadInStays | backend/dfs/node/node.go:406-492 | Five messages that a fresh master may handle make a graph whose victim nobody waits for: its release changes nothing and the deadlock stays. |
| BullyElection.BullyElector.constructor | backend/dfs/election/bully.go:57-64 | A new elector has no election running. |
| BullyElection.BullyElector.StartElection | backend/dfs/election/bully.go:80-145 | One election at a time: the higher peers are asked, or without any the node claims the role; the flags keep saying where it stands. |
| BullyElection.BullyElector.BecomeLeader | backend/dfs/election/bully.go:147-177 | Every peer is told before the wait for a cancel begins. |
| BullyElection.BullyElector.ElectionTimeout | backend/dfs/election/bully.go:133-135 | Without an OK in time the node claims the role. |
| BullyElection.BullyElector.CoordinatorWaitTimeout | backend/dfs/election/bully.go:155-177 | Without a cancel in time the node is Master and the election is over. |
| BullyElection.BullyElector.ContextDone | backend/dfs/election/bully.go:136-138 | When the context ends during the first wait the election is over without a claim. |
| BullyElection.BullyElector.HandleElection | backend/dfs/election/bully.go:199-224 | A lower asker gets an OK, and the node starts its own election unless one runs or it is Master. |
| BullyElection.BullyElector.HandleOk | backend/dfs/election/bully.go:226-241 | An OK ends the first wait and nothing else. |
| BullyElection.BullyElector.HandleCoordinator | backend/dfs/election/bully.go:243-306 | A lower claimant is ignored, and told again by a Master; any other claim ends a running election, demotes, and makes the sender the one master of the peer table. |
| ElectionTheorems.StartMeans | backend/dfs/election/bully.go:80-145 | An idle node asks exactly the peers of higher priority and waits for an OK, or without any tells every peer and waits for a cancel; a running election is left alone. |
| ElectionTheorems.HandleElectionMeans | backend/dfs/election/bully.go:199-224 | A lower asker is told OK, and an idle node that is not Master starts an election of its own; a Master, a busy node, and anybody asked by a node that is not lower start none. |
| ElectionTheorems.HandleOkMeans | backend/dfs/election/bully.go:226-241 | An OK of another node ends the first wait and the election with it, and changes nothing otherwise. |
| ElectionTheorems.HandleCoordinatorMeans | backend/dfs/election/bully.go:243-306 | A claim of a known lower node, -1 apart, changes nothing and is answered to all by a Master only; any other ends the election, demotes, and leaves the sender as the one master of the table. |
| ElectionTheorems.WaitsEnd | backend/dfs/election/bully.go:128-177 | What the end of each wait leaves of role, flags and messages. |
| ElectionSystem.HandleByHighest | backend/dfs/election/bully.go:199-306 | The highest node takes no OK, yields to no claim, and as Master answers every claim to all. |
| ElectionTheorems.MasterForGood | backend/dfs/election/bully.go:243-306 | Once Master, the highest live node is Master in every later state, whatever the timers. |
| ElectionTheorems.SoleMaster | backend/dfs/election/bully.go:147-306 | In every run, with no message in flight the highest live node is the only Master once it is Master, given that the election timeout is the longer one. |
| ElectionTheorems.HighestWins | backend/dfs/election/bully.go:80-177 | An election started by the highest live node makes it Master within the two timeouts, unless its context ends. |
| ElectionTheorems.AnyElectionWins | backend/dfs/election/bully.go:80-224 | An election that any idle live node starts asks the highest one, which is Master within the two timeouts after the question is delivered, unless its own context ends. |
| ElectionTheorems.StepInv | backend/dfs/election/bully.go:80-306 | Every step keeps the invariant behind the sole Master. |
| ElectionRaces.TwoMasters | backend/dfs/election/bully.go:28-31 | With an election timeout no longer than the coordinator wait, a run ends with two Masters and no message left. |
| ElectionRaces.SoleMasterIffOrdered | backend/dfs/election/bully.go:28-31 | The sole-Master property holds in every run exactly when the election timeout is longer, as 3 s and 500 ms are. |
| ElectionRaces.NeverDemotedIff | backend/dfs/election/bully.go:246-267 | The highest live node stays Master in every run exactly when no other live node has priority -1. |
| HashRing.Ring.constructor | backend/dfs/hashing/hash.go:23-34 | An empty, sorted ring with 150 virtual nodes unless a positive number is asked for. |
| HashRing.Ring.AddNode | backend/dfs/hashing/hash.go:44-64 | A new node's positions are appended in turn, owned and sorted in; a known node changes nothing; the ring stays sorted. |
| HashRing.Ring.RemoveNode | backend/dfs/hashing/hash.go:66-85 | The scan removes the node, its owner entries and their positions; the ring stays sorted. |
| VirtualKeys.TextShape | backend/dfs/hashing/hash.go:40-42 | The text of an identifier has 36 characters, hyphens at 8, 13, 18 and 23, and in between its bytes in order as two lower-case hex digits each. |
| VirtualKeys.DecimalReadsBack | backend/dfs/hashing/hash.go:40-42 | The decimal digits of a number, without leading zeros, read back give the number. |
| VirtualKeys.KeyInjective | backend/dfs/hashing/hash.go:40-42 | Two virtual nodes with the same key are the same node and number. |
| VirtualKeys.PositionsCanBeDistinct | backend/dfs/hashing/hash.go:44-64 | For any nodes whose virtual nodes fit into 32 bits some hash gives all of them distinct positions. |
| VirtualKeys.DefaultPositions | backend/dfs/hashing/hash.go:12-64 | For any node some hash gives it 150 distinct positions, which are then on the ring. |
| HashRing.Ring.Search | backend/dfs/hashing/hash.go:97-99 | The binary search finds the first position at or after the hash. |
| HashRing.Ring.FindNodesForFile | backend/dfs/hashing/hash.go:87-121 | The wrap-around scan returns the first `n` live owners of the ring read clockwise. |
| RingOrder.ReachableSorted | backend/dfs/hashing/hash.go:44-85 | Every ring reached by adding and removing is sorted, collisions included. |
| RingOrder.FindIsNearest | backend/dfs/hashing/hash.go:87-121 | A lookup lists live owners strictly by their nearest position clockwise; one left out comes after all, and none is left out unless there are `n`. |
| RingOrder.FindCount | backend/dfs/hashing/hash.go:87-121 | A lookup has exactly as many nodes as asked for or as live nodes own a position. |
| RingChanges.ReachableExact | backend/dfs/hashing/hash.go:44-85 | With distinct positions, after any history the ring is the ascending sequence of the current nodes' positions and the owner map is exact. |
| RingChanges.SameNodesSameRing | backend/dfs/hashing/hash.go:44-85 | Two such rings with the same nodes are equal. |
| RingChanges.AddThenRemove | backend/dfs/hashing/hash.go:44-85 | Removing a node just added restores the ring. |
| RingChanges.RemoveThenAdd | backend/dfs/hashing/hash.go:44-85 | Adding back a node just removed restores the ring. |
| RingChanges.AddDisruptsLittle | backend/dfs/hashing/hash.go:44-121 | After adding a node, a lookup without it is a prefix of the lookup before, short by at most one. |
| RingChanges.RemoveDisruptsLittle | backend/dfs/hashing/hash.go:66-121 | After removing a node, the lookup before without it is a prefix of the lookup after, short by at most one. |
| MasterIndex.Master.HandleMetadataResponse | backend/dfs/node/node.go:587-622 | A master records each reported file, with the sender as a replica once; others do nothing. |
| MasterIndex.Master.HandleStreamStoreAck | backend/dfs/node/node.go:869-903 | An acknowledgement is noted; the one that completes the upload records the file at its expected nodes and ends the session. |
| MasterIndex.Master.PlanReplication | backend/dfs/node/node.go:1366-1415 | The plan of the scan over the placement, or none. |
| MasterIndex.Master.VerifyAndRepairReplication | backend/dfs/node/node.go:1342-1364 | A file is planned for exactly when it has one or two replicas, the first of them is a peer, and some placed node is none; the plan copies from the first replica to exactly those nodes, and on a sorted ring makes the replicas at least three or as many as the live owners. |
| FileIndex.RepairIff | backend/dfs/node/node.go:1342-1415 | The same for one file, whatever the ring. |
| FileIndex.RepairCovers | backend/dfs/node/node.go:1342-1415 | The targets of a repair are distinct and new, and with them there are three replicas or as many as live owners. |
| FileIndex.SyncMeta | backend/dfs/node/node.go:598-622 | The meta data of an entry are those of the first report of its hash, whatever is reported later. |
| FileIndex.StoreAckMeans | backend/dfs/node/node.go:869-903 | The completing acknowledgement makes an entry of the session's file, size, type and nodes and ends the session, an earlier one is noted, and every other entry and session stays. |
| FileIndex.SyncReplicas | backend/dfs/node/node.go:598-622 | After any responses a node is a replica of a hash exactly when it reported it, and no list has a duplicate. |
| FileIndex.SyncOrderIndependent | backend/dfs/node/node.go:598-622 | Orders and repeats of the same reports give the same hashes with the same replicas. |
| FileIndex.AlwaysTidy | backend/dfs/node/node.go:884-903 | Responses, uploads and acknowledgements in any order keep every replica list free of duplicates and non-empty. |
| FileIndex.PlanCovers | backend/dfs/node/node.go:1366-1415 | Targets are distinct, in the placement and no replicas; the source is one; together they number at least three or the live owners. Without a plan one of the three skip cases holds. |
| StreamFrames.HeaderParts | backend/dfs/streaming/protocol.go:54-76 | Magic, session id, file size and chunk size stand at 0, 1, 37 and 45 of the header. |
| StreamFrames.FieldMeans | backend/dfs/streaming/protocol.go:54-76 | A field of a frame holds its text, cut off or filled up with NUL. |
| StreamFrames.DownloadRequestParts | backend/dfs/streaming/protocol.go:118-124 | Magic and hash stand at 0 and 1 of the 65 bytes. |
| StreamFrames.ResponseParts | backend/dfs/streaming/stream.go:196-207 | Status, hash and error stand at 0, 1 and 65 of the response, the unused field zero. |
| FileIndex.BeginMeans | backend/dfs/node/node.go:700-728 | A session waits for exactly the nodes the ring picks for the file, and none is opened without any. |
| StreamProtocol.EncodeHeader | backend/dfs/streaming/protocol.go:54-76 | The buffer holds the 64-byte frame of the header. |
| StreamProtocol.ReadHeader | backend/dfs/streaming/protocol.go:78-96 | Short input and unknown magic are errors; otherwise the header of the first 64 bytes. |
| StreamProtocol.Trim | backend/dfs/streaming/protocol.go:98-105 | The backwards loop cuts off exactly the trailing NUL bytes. |
| StreamProtocol.ParseUpload | backend/dfs/streaming/stream.go:129-149 | The server's own parse gives what DecodeHeader gives on every upload frame. |
| StreamProtocol.EncodeDownloadRequest | backend/dfs/streaming/protocol.go:118-124 | The 65-byte request frame. |
| StreamProtocol.SendUploadResponse | backend/dfs/streaming/stream.go:196-207 | The 321-byte response frame, with the hash or the error. |
| ShiftOr.Uint64IsBigEndian | backend/dfs/streaming/stream.go:147-148 | Shifts and ors of eight bytes read the big-endian number. |
| ShiftOr.Uint32IsBigEndian | backend/dfs/streaming/stream.go:149 | The same for four bytes. |
| StreamFrames.HeaderRoundTrip | backend/dfs/streaming/protocol.go:54-96 | Decoding an encoded header gives it back exactly for a known magic and a session id of at most 36 bytes not ending in NUL; every int64 and int32 size will do. |
| StreamFrames.FrameRoundTrip | backend/dfs/streaming/protocol.go:54-96 | Encoding a decoded frame gives it back exactly when its padding is zero. |
| StreamFrames.DownloadRoundTrip | backend/dfs/streaming/protocol.go:118-139 | A download request comes back exactly for hashes of at most 64 bytes not ending in NUL. |
| StreamFrames.ResponseRoundTrip | backend/dfs/client/master_client.go:323-344 | The client reads the status, hash or error that was sent exactly when it fits its field and does not end in NUL. |
| UploadHandlers.UploadFile | frontend/src/hooks/useFileUpload.ts:57-115 | The loop posts the slices in order, none empty and none over 50 MiB, all of them or up to the first slice that is cancelled before its post or whose post fails. |
| Upload.SliceExtends | frontend/src/hooks/useFileUpload.ts:57-101 | The slices one after the other are the file. |
| UploadHandlers.StreamUploadSession.WriteChunk | backend/dfs/client/master_client.go:292-308 | The chunk goes to the connections in turn up to the first incomplete write; bytes count only when all took it. |
| UploadHandlers.StreamUploadSession.Finalize | backend/dfs/client/master_client.go:311-355 | The result of the byte count and of the responses read in turn. |
| Upload.FinalizeMeans | backend/dfs/client/master_client.go:311-355 | Success exactly when the announced size was written and every node answered that it stored the file. |
| UploadHandlers.StreamUploadSession.UploadReads | backend/dfs/client/master_client.go:369-394 | The single-call upload succeeds exactly when the reader ends, every write is complete, as many bytes as announced were read and every node says it stored the file; each connection then carried all bytes read. |
| UploadAnswers.WriteToStops | backend/dfs/client/master_client.go:292-304 | At the first incomplete write the connections before it have the whole chunk, it has what went out, and those behind it nothing. |
| UploadAnswers.FinalizeHash | backend/dfs/client/master_client.go:339-341 | The hash of an upload is the one that the first storage node to name one has sent. |
| UploadAnswers.InitMeans | backend/internal/handlers/file_handler.go:350-410 | Each answer with its exact condition; success opens a session at chunk 0 with the header on every connection, anything else changes nothing. |
| UploadAnswers.ChunkMeans | backend/internal/handlers/file_handler.go:412-505 | Each answer with its exact condition; success is the next chunk of the caller's own session, taken whole by every connection; a refused chunk leaves every session alone. |
| UploadAnswers.FinalizeAnswers | backend/internal/handlers/file_handler.go:507-586 | Each answer with its exact condition; success needs the owner, all chunks and bytes, a stored reply from every node and the saved record; the session is gone in every case. |
| UploadAnswers.DeliveredIff | backend/internal/handlers/file_handler.go:412-586 | After any mix of requests, finalizing succeeds exactly when the owner asks, all slices were accepted, every node says stored and the record is saved. |
| UploadAnswers.UploadSucceeds | backend/internal/handlers/file_handler.go:350-586 | An upload whose slices the owner posts in order with every connection taking them, whatever else is requested meanwhile, ends in success when every node says stored and the record is saved. |
| UploadHandlers.FileHandler.InitChunkedUpload | backend/internal/handlers/file_handler.go:350-410 | A session starts at chunk 0 with a header on every connection; empty names, sizes and counts are refused. |
| UploadHandlers.FileHandler.UploadChunk | backend/internal/handlers/file_handler.go:412-505 | Only the next chunk of the owner's session is taken; a failed write ends the session; every other request changes nothing. |
| UploadHandlers.FileHandler.FinalizeChunkedUpload | backend/internal/handlers/file_handler.go:507-586 | The session ends whatever happens, and succeeds only when all chunks are in. |
| Upload.UploadDelivers | backend/internal/handlers/file_handler.go:470-552 | For any mix of requests between init and a successful finalize, every connection carried its header and exactly the file, and the server's bounded read stores exactly the file. |
| Upload.CutConnectionStored | backend/dfs/streaming/stream.go:171-175 | Every connection with a good header stores a prefix of what follows, without an error: as many bytes as announced exactly when the size is not negative and that many follow, otherwise all that follow or, for a negative size, none. |
| UploadIndex.CompletionLists | backend/dfs/node/node.go:869-903 | In any history of the index, the acknowledgement that ends an upload is the last of all its nodes, and the entry lists exactly these, each of which has stored something, for the file the upload began with. |
| UploadIndex.ListedHoldFileIff | backend/dfs/streaming/stream.go:163-193 | Every node listed for a completed upload holds the whole file exactly when every connection carried the header and all bytes of the file. |
| UploadIndex.ListedWithoutFile | backend/dfs/streaming/stream.go:171-193 | A history in which a node whose connection was cut after the header is listed and holds nothing. |
| Download.StreamCopier.ProcessChunk | backend/dfs/client/master_client.go:531-549 | What the destination took is written; count and hash move only for a complete write. |
| Download.StreamCopier.Copy | backend/dfs/client/master_client.go:481-562 | However reads split, the output is a prefix of the stream of at most the announced size; success exactly when some number of answers brings the announced bytes with no error, no incomplete write and no end of stream before the last, and the bytes have the expected hash. |

## Left out

- Sockets, JSON, dialling, retries, deadlines of connections, goroutine scheduling and mutexes: links and atomic steps stand for them, so races inside a handler, such as the timestamp taken before the queue mutex in RequestLock, are not modelled.
- Loss, duplication and reordering of lock messages, which the code's goroutine per send and its dropped sends allow.
- Happened-before through clients: a client sends logical time 0 whatever it has received, so no clock follows it.
- Discovery, heartbeats and health checks: membership is fixed during lock and election runs.
- Machine integers: logical times, counts and clock values are unbounded; the header sizes and the ring positions are not.
- The `Status` field of a lock request, which nothing reads, and `CompareMessageLamport`, which repeats CompareLamport.
- The election monitor's choice of when to start an election and its removal of the dead coordinator from the peer table; any node may start one at any time.
- What the peer-role tables of different nodes say about each other during a run; only actual roles are proved about.
- HashRing.Ring.FindNodesForFile: a negative `n`, which panics in the code unless the ring is empty.
- SHA-256, CRC32 and random ids as such.
- Disk storage, temporary files and the on-disk index: a save stores the bytes read.
- The transfer of replicas: the message a source node sends for it has no handler.
- The `Done` channel of a metadata sync and the session lookup with retries before an upload.
- MasterIndex.Master.HandleStreamStoreAck: nodes that acknowledge without being expected are counted as in the code; that they should not be is not stated.
- HTTP, JWT, SQL and multipart parsing around the upload handlers; the database save is a yes or no.
- The server side of a download, configuration, metrics, experiments and all React components but the chunk loop.
