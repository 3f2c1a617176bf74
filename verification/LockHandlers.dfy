/** What each operation and handler of the lock does, field by field and message by message
    (backend/dfs/node/node.go). */
module LockHandlers {
  import opened Uuids
  import opened Lamport
  import opened LockState
  import opened LockSystem
  import opened LockEffects
  import opened LockSweep
  import Sorting

  /** Each peer is sent one message with that body, later than `after`, and nobody else anything. */
  ghost predicate OneToEach(n: NodeState, out: seq<Send>, body: MessageBody, after: int) {
    forall j :: if j in n.peers then OneCopy(PacketsTo(out, j), n.id, body, after) else PacketsTo(out, j) == []
  }

  /** `n'` is `n` with another clock, queue and acks of `r`. */
  ghost predicate ChangedAt(n: NodeState, n': NodeState, r: string) {
    && n' == n.(logicalTime := n'.logicalTime, lockQueue := n'.lockQueue, pendingAcks := n'.pendingAcks)
    && (forall x | x != r :: (x in n'.lockQueue <==> x in n.lockQueue) && Queue(n', x) == Queue(n, x))
    && (forall x | x != r :: (x in n'.pendingAcks <==> x in n.pendingAcks) && Acks(n', x) == Acks(n, x))
  }

  // ----- the clock -----

  /** A receive sets the clock to the least value above its own and that of the message. */
  lemma ReceivedIsLeast(n: NodeState, time: int)
    ensures var t := Received(n, time).logicalTime;
            t > n.logicalTime && t > time && (t == n.logicalTime + 1 || t == time + 1)
    ensures Received(n, time) == n.(logicalTime := Received(n, time).logicalTime)
  {
  }

  /** A broadcast takes the next times one after the other, in the order in which the peers are served. */
  lemma {:induction false} BroadcastTimes(n: NodeState, body: MessageBody, order: seq<Uuid>)
    ensures var o := Broadcast(n, body, order);
            && o.node == n.(logicalTime := n.logicalTime + |order|) && |o.out| == |order|
            && forall k | 0 <= k < |order| :: o.out[k] == Send(order[k], Packet(n.id, body, n.logicalTime + k + 1))
  {
    if order != [] {
      BroadcastTimes(n, body, order[..|order| - 1]);
    }
  }

  lemma BroadcastToEach(n: NodeState, body: MessageBody, order: seq<Uuid>)
    requires Enumerates(order, n.peers.Keys)
    ensures OneToEach(n, Broadcast(n, body, order).out, body, n.logicalTime)
    ensures Broadcast(n, body, order).node == n.(logicalTime := n.logicalTime + |n.peers|)
  {
    BroadcastHarmless(n, body, order);
    OrderSize(order, n.peers.Keys);
    forall j
      ensures if j in n.peers then OneCopy(PacketsTo(Broadcast(n, body, order).out, j), n.id, body, n.logicalTime)
              else PacketsTo(Broadcast(n, body, order).out, j) == []
    {
      BroadcastTo(n, body, order, j);
    }
  }

  lemma {:induction false} OrderSize(order: seq<Uuid>, ids: set<Uuid>)
    requires Enumerates(order, ids)
    ensures |order| == |ids|
    decreases |order|
  {
    if order == [] {
      assert ids == {};
    } else {
      var front, last := order[..|order| - 1], order[|order| - 1];
      assert last in ids && forall x :: x in front <==> x in ids - {last} by {
        assert order == front + [last] && last !in front;
      }
      OrderSize(front, ids - {last});
    }
  }

  /** What is broadcast after a change of the node at `r`. */
  lemma BroadcastAfter(n: NodeState, n1: NodeState, r: string, body: MessageBody, order: seq<Uuid>)
    requires Enumerates(order, n.peers.Keys) && ChangedAt(n, n1, r)
    ensures var o := Broadcast(n1, body, order);
            && ChangedAt(n, o.node, r) && o.node.logicalTime == n1.logicalTime + |n.peers|
            && Queue(o.node, r) == Queue(n1, r) && o.node.pendingAcks == n1.pendingAcks
            && OneToEach(n, o.out, body, n1.logicalTime)
  {
    BroadcastToEach(n1, body, order);
    LaterClock(n, n1, n1.logicalTime + |n.peers|, r);
    SentBy(n, n1, Broadcast(n1, body, order).out, body, n1.logicalTime);
  }

  // ----- the caller's operations -----

  /** A request carries the next time and the present one, joins the own sorted queue, forgets the acks, and is
      sent once to every peer with a later time. */
  lemma RequestMeans(n: NodeState, r: string, now: int, order: seq<Uuid>)
    requires Enumerates(order, n.peers.Keys)
    ensures var o := RequestLock(n, r, now, order); var req := LockRequest(r, n.id, n.logicalTime + 1, now);
            && ChangedAt(n, o.node, r) && o.node.logicalTime == n.logicalTime + 1 + |n.peers|
            && multiset(Queue(o.node, r)) == multiset(Queue(n, r)) + multiset{req}
            && Sorting.Sorted(Queue(o.node, r), CompareLockRequests)
            && r in o.node.pendingAcks && o.node.pendingAcks[r] == {}
            && OneToEach(n, o.out, RequestMsg(req), n.logicalTime + 1)
  {
    var n1, req := WithRequest(n, r, now), NewRequest(n, r, now);
    RequestQueued(n, r, now);
    BroadcastAfter(n, n1, r, RequestMsg(req), order);
  }

  lemma RequestQueued(n: NodeState, r: string, now: int)
    ensures var n1, req := WithRequest(n, r, now), LockRequest(r, n.id, n.logicalTime + 1, now);
            && ChangedAt(n, n1, r) && n1.logicalTime == n.logicalTime + 1 && req == NewRequest(n, r, now)
            && multiset(Queue(n1, r)) == multiset(Queue(n, r)) + multiset{req}
            && Sorting.Sorted(Queue(n1, r), CompareLockRequests)
            && r in n1.pendingAcks && n1.pendingAcks[r] == {}
  {
    var n1, req := WithRequest(n, r, now), NewRequest(n, r, now);
    Queued(Queue(n, r), req);
    RequestChanges(n, r, now);
    assert Queue(n1, r) == Enqueue(Queue(n, r), req);
  }

  lemma RequestChanges(n: NodeState, r: string, now: int)
    ensures ChangedAt(n, WithRequest(n, r, now), r)
  {
  }

  lemma Queued(q: seq<LockRequest>, req: LockRequest)
    ensures multiset(Enqueue(q, req)) == multiset(q) + multiset{req}
    ensures Sorting.Sorted(Enqueue(q, req), CompareLockRequests)
  {
    CompareLockRequestsOrder();
    Sorting.SliceStableSorted(q + [req], CompareLockRequests);
    Sorting.SliceStablePermutes(q + [req], CompareLockRequests);
  }

  /** Only the clock is later: what ChangedAt says and whom the messages go to stays. */
  lemma LaterClock(n: NodeState, n1: NodeState, t: int, r: string)
    requires ChangedAt(n, n1, r)
    ensures ChangedAt(n, n1.(logicalTime := t), r)
    ensures Queue(n1.(logicalTime := t), r) == Queue(n1, r) && Acks(n1.(logicalTime := t), r) == Acks(n1, r)
  {
    var n2 := n1.(logicalTime := t);
    assert forall x :: Queue(n2, x) == Queue(n1, x) && Acks(n2, x) == Acks(n1, x);
  }

  lemma SentBy(n: NodeState, n1: NodeState, out: seq<Send>, body: MessageBody, after: int)
    requires n1.id == n.id && n1.peers == n.peers && OneToEach(n1, out, body, after)
    ensures OneToEach(n, out, body, after)
  {
    forall j
      ensures if j in n.peers then OneCopy(PacketsTo(out, j), n.id, body, after) else PacketsTo(out, j) == []
    {
      assert if j in n1.peers then OneCopy(PacketsTo(out, j), n1.id, body, after) else PacketsTo(out, j) == [];
    }
  }

  lemma WithoutOwn(n: NodeState, r: string)
    ensures var n1 := WithoutFirst(n, r, n.id); var n2 := n1.(pendingAcks := n1.pendingAcks - {r});
            ChangedAt(n, n2, r) && r !in n2.pendingAcks && FirstCut(Queue(n, r), Queue(n2, r), n.id)
  {
    var n1 := WithoutFirst(n, r, n.id);
    var n2 := n1.(pendingAcks := n1.pendingAcks - {r});
    CutChanges(n, r);
    assert Queue(n2, r) == Queue(n1, r) && forall x | x != r :: Queue(n2, x) == Queue(n1, x);
  }

  lemma CutChanges(n: NodeState, r: string)
    ensures var n1 := WithoutFirst(n, r, n.id);
            ChangedAt(n, n1, r) && n1.pendingAcks == n.pendingAcks && FirstCut(Queue(n, r), Queue(n1, r), n.id)
  {
    RemoveFirstCuts(Queue(n, r), n.id);
    if r in n.lockQueue {
      assert Queue(WithoutFirst(n, r, n.id), r) == RemoveFirst(Queue(n, r), n.id);
    }
  }

  /** The first own entry and the acks go, and every peer is sent one release. */
  lemma ReleaseMeans(n: NodeState, r: string, order: seq<Uuid>)
    requires Enumerates(order, n.peers.Keys)
    ensures var o := ReleaseLock(n, r, order);
            && ChangedAt(n, o.node, r) && o.node.logicalTime == n.logicalTime + |n.peers|
            && r !in o.node.pendingAcks && OneToEach(n, o.out, ReleaseMsg(r), n.logicalTime)
            && FirstCut(Queue(n, r), Queue(o.node, r), n.id)
  {
    var n1 := WithoutFirst(n, r, n.id);
    var n2 := n1.(pendingAcks := n1.pendingAcks - {r});
    WithoutOwn(n, r);
    BroadcastAfter(n, n2, r, ReleaseMsg(r), order);
  }

  /** `q'` is `q` without the first entry of `id`, or `q` itself if it has none. */
  ghost predicate FirstCut(q: seq<LockRequest>, q': seq<LockRequest>, id: Uuid) {
    if NoneOf(q, id) then q' == q else exists k :: CutFirstAt(q, q', id, k)
  }

  ghost predicate CutFirstAt(q: seq<LockRequest>, q': seq<LockRequest>, id: Uuid, k: int) {
    && 0 <= k < |q| && q[k].nodeID == id && (forall m | 0 <= m < k :: q[m].nodeID != id)
    && q' == q[..k] + q[k + 1..]
  }

  lemma RemoveFirstCuts(q: seq<LockRequest>, id: Uuid)
    ensures FirstCut(q, RemoveFirst(q, id), id)
  {
    if NoneOf(q, id) {
      RemoveFirstNone(q, id);
    } else {
      var k := FirstOf(q, id);
      RemoveFirstAt(q, k, id);
      assert CutFirstAt(q, RemoveFirst(q, id), id, k);
    }
  }

  /** Once `k` expired heads are gone, the node may enter exactly if the head is its own and it has as many acks as
      peers; then every peer is told once, otherwise nobody anything. */
  lemma EnterMeans(n: NodeState, r: string, now: int, limit: Limit, order: seq<Uuid>, k: nat)
    requires Enumerates(order, n.peers.Keys) && ExpiredHeads(Queue(n, r), k, now, limit)
    ensures var o := EnterCriticalSection(n, r, now, limit, order); var q := Queue(n, r);
            var acks := if OwnBefore(q, k, n.id) then {} else Acks(n, r);
            && ChangedAt(n, o.node, r) && Queue(o.node, r) == q[k..] && Acks(o.node, r) == acks
            && (if k < |q| && q[k].nodeID == n.id && |acks| >= |n.peers|
                then OneToEach(n, o.out, AcquiredMsg(r), n.logicalTime) && o.node.logicalTime == n.logicalTime + |n.peers|
                else o.out == [] && o.node.logicalTime == n.logicalTime)
  {
    var n1 := DropExpiredHeads(n, r, now, limit);
    HeadsDropped(n, r, now, limit, k);
    DroppedChanges(n, r, now, limit, k);
    BroadcastAfter(n, n1, r, AcquiredMsg(r), order);
  }

  lemma DroppedChanges(n: NodeState, r: string, now: int, limit: Limit, k: nat)
    requires ExpiredHeads(Queue(n, r), k, now, limit)
    ensures var n1 := DropExpiredHeads(n, r, now, limit);
            && ChangedAt(n, n1, r) && n1.logicalTime == n.logicalTime && n1.id == n.id && n1.peers == n.peers
            && Acks(n1, r) == if OwnBefore(Queue(n, r), k, n.id) then {} else Acks(n, r)
  {
    HeadsDropped(n, r, now, limit, k);
    HeadsKept(n, r, now, limit);
  }

  lemma {:induction false} HeadsKept(n: NodeState, r: string, now: int, limit: Limit)
    ensures DropExpiredHeads(n, r, now, limit).lockQueue.Keys == n.lockQueue.Keys
    decreases |Queue(n, r)|
  {
    var q := Queue(n, r);
    if q != [] && Expired(q[0], now, limit) {
      var acks := if q[0].nodeID == n.id then n.pendingAcks - {r} else n.pendingAcks;
      HeadsKept(n.(lockQueue := n.lockQueue[r := q[1..]], pendingAcks := acks), r, now, limit);
    }
  }

  // ----- the message handlers -----

  /** A request joins the sorted queue. */
  lemma HandleRequestQueues(n: NodeState, from: Uuid, req: LockRequest)
    ensures var n' := HandleLockRequest(n, from, req).node; var r := req.resourceID;
            && multiset(Queue(n', r)) == multiset(Queue(n, r)) + multiset{req}
            && Sorting.Sorted(Queue(n', r), CompareLockRequests)
            && (forall x | x != r :: Queue(n', x) == Queue(n, x))
  {
    Queued(Queue(n, req.resourceID), req);
  }

  /** It adds an edge to another recorded holder and no other. */
  lemma HandleRequestEdges(n: NodeState, from: Uuid, req: LockRequest, w: Uuid, h: Uuid)
    ensures var n' := HandleLockRequest(n, from, req).node; var r := req.resourceID;
            (w in n'.waitForGraph && h in n'.waitForGraph[w])
            <==> (w in n.waitForGraph && h in n.waitForGraph[w])
                 || (w == req.nodeID && r in n.lockHolders && h == n.lockHolders[r] && h != w)
  {
  }

  /** It is acked to a known sender, at the next time, and nothing else is sent or changed. */
  lemma HandleRequestAnswer(n: NodeState, from: Uuid, req: LockRequest)
    ensures var o := HandleLockRequest(n, from, req);
            && (if from in n.peers then o.out == [Send(from, Packet(n.id, AckMsg(req.resourceID), n.logicalTime + 1))]
                else o.out == [])
            && o.node == n.(logicalTime := n.logicalTime + |o.out|, lockQueue := o.node.lockQueue,
                            waitForGraph := o.node.waitForGraph)
  {
  }

  /** A release cuts the sender's first entry, forgets who holds the resource and who waits for the sender. */
  lemma HandleReleaseMeans(n: NodeState, from: Uuid, r: string, w: Uuid, h: Uuid, x: string)
    ensures var n' := HandleLockRelease(n, from, r);
            && FirstCut(Queue(n, r), Queue(n', r), from) && (x != r ==> Queue(n', x) == Queue(n, x))
            && r !in n'.lockHolders
            && (x != r ==> (x in n'.lockHolders <==> x in n.lockHolders))
            && (x != r && x in n.lockHolders ==> n'.lockHolders[x] == n.lockHolders[x])
            && ((w in n'.waitForGraph && h in n'.waitForGraph[w])
                <==> w in n.waitForGraph && h in n.waitForGraph[w] && h != from)
            && n' == n.(lockQueue := n'.lockQueue, lockHolders := n'.lockHolders, waitForGraph := n'.waitForGraph)
  {
    RemoveFirstCuts(Queue(n, r), from);
  }

  /** An ack joins the acks of its resource, an announcement names the holder, and nothing else changes. */
  lemma HandleAckMeans(n: NodeState, from: Uuid, r: string)
    ensures var n' := HandleLockAck(n, from, r);
            && n' == n.(pendingAcks := n'.pendingAcks) && r in n'.pendingAcks
            && (forall x :: x in Acks(n', r) <==> x in Acks(n, r) || x == from)
            && (forall q | q != r :: (q in n'.pendingAcks <==> q in n.pendingAcks) && Acks(n', q) == Acks(n, q))
    ensures var n' := HandleLockAcquired(n, from, r);
            && n' == n.(lockHolders := n'.lockHolders) && r in n'.lockHolders && n'.lockHolders[r] == from
            && (forall q | q != r :: (q in n'.lockHolders <==> q in n.lockHolders)
                                     && (q in n.lockHolders ==> n'.lockHolders[q] == n.lockHolders[q]))
  {
  }

  /** Who aborts releases each of the resources: its first own entry on each is cut, the acks go, and every peer is
      told one release of each, in the same order. */
  lemma {:induction false} ReleaseAllMeans(n: NodeState, rs: seq<string>, orders: seq<seq<Uuid>>, j: Uuid, r: string)
    requires |orders| == |rs| && j in n.peers && forall o | o in orders :: Enumerates(o, n.peers.Keys)
    requires forall i, k | 0 <= i < k < |rs| :: rs[i] != rs[k]
    ensures var o := ReleaseAll(n, rs, orders);
            && ReleasesIn(PacketsTo(o.out, j), n.id, rs)
            && o.node == n.(logicalTime := o.node.logicalTime, lockQueue := o.node.lockQueue,
                            pendingAcks := o.node.pendingAcks)
            && (if r in rs then FirstCut(Queue(n, r), Queue(o.node, r), n.id) && r !in o.node.pendingAcks
                else Queue(o.node, r) == Queue(n, r) && Acks(o.node, r) == Acks(n, r))
  {
    if rs != [] {
      var k := |rs| - 1;
      var before := ReleaseAll(n, rs[..k], orders[..k]);
      var last := ReleaseLock(before.node, rs[k], orders[k]);
      ReleaseAllMeans(n, rs[..k], orders[..k], j, r);
      ReleaseAllMeans(n, rs[..k], orders[..k], j, rs[k]);
      assert orders[k] in orders;
      ReleaseMeans(before.node, rs[k], orders[k]);
      PacketsToConcat(before.out, last.out, j);
      assert OneCopy(PacketsTo(last.out, j), n.id, ReleaseMsg(rs[k]), before.node.logicalTime);
      ReleasesInMore(PacketsTo(before.out, j), PacketsTo(last.out, j), n.id, rs);
      assert rs[k] !in rs[..k] && (r in rs <==> r in rs[..k] || r == rs[k]);
    }
  }

  ghost predicate HasEntry(q: seq<LockRequest>, id: Uuid) {
    exists p :: p in q && p.nodeID == id
  }

  lemma OwnResourcesMeans(n: NodeState, r: string)
    ensures r in OwnResources(n) <==> HasEntry(Queue(n, r), n.id)
  {
    var q := Queue(n, r);
    if p :| p in q && p.nodeID == n.id {
      var k :| 0 <= k < |q| && q[k] == p;
      assert HasOwn(n, r);
    }
    if HasOwn(n, r) {
      var k :| 0 <= k < |q| && q[k].nodeID == n.id;
      assert q[k] in q;
    }
  }

  lemma OnePlace(rs: seq<string>, r: string)
    requires forall i, k | 0 <= i < k < |rs| :: rs[i] != rs[k]
    ensures PlacesOf(rs, r) == {} <==> r !in rs
    ensures r in rs ==> |PlacesOf(rs, r)| == 1
  {
    if r in rs {
      var k :| 0 <= k < |rs| && rs[k] == r;
      assert PlacesOf(rs, r) == {k};
    }
  }

  /** The abort releases exactly the resources on which the node has an entry: of each the first own entry and the
      acks go and each peer is told once; of any other resource nothing changes and nobody is told. */
  lemma AbortMeans(n: NodeState, rs: seq<string>, orders: seq<seq<Uuid>>, j: Uuid, r: string)
    requires ReleasesAll(n, rs, orders) && j in n.peers
    ensures var o := ReleaseAll(n, rs, orders); var pks := PacketsTo(o.out, j);
            && (forall k | 0 <= k < |pks| :: pks[k].body.ReleaseMsg? && pks[k].from == n.id)
            && (if HasEntry(Queue(n, r), n.id)
                then FirstCut(Queue(n, r), Queue(o.node, r), n.id) && r !in o.node.pendingAcks
                     && |ReleasesOf(pks, r)| == 1
                else Queue(o.node, r) == Queue(n, r) && Acks(o.node, r) == Acks(n, r) && ReleasesOf(pks, r) == {})
  {
    ReleaseAllMeans(n, rs, orders, j, r);
    OwnResourcesMeans(n, r);
    OnePlace(rs, r);
    ReleasesCounted(PacketsTo(ReleaseAll(n, rs, orders).out, j), n.id, rs, r);
  }
}
