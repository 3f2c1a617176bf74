/** The lock part of the Node object (backend/dfs/node/node.go): its fields and the methods that
    change them, each proved against the function of LockState that gives the new state and the
    messages sent. Messages are returned instead of being written to sockets. */
module LockNode {
  import opened Uuids
  import opened Lamport
  import opened LockState
  import CycleSearch
  import Deadlock

  class Node {
    const id: Uuid
    const priority: int
    const peers: map<Uuid, int>
    var logicalTime: int
    var lockQueue: map<string, seq<LockRequest>>
    var pendingAcks: map<string, set<Uuid>>
    var lockHolders: map<string, Uuid>
    var waitForGraph: map<Uuid, set<Uuid>>

    constructor (id: Uuid, priority: int, peers: map<Uuid, int>)
      ensures State() == NodeState(id, priority, peers, 0, map[], map[], map[], map[])
    {
      this.id, this.priority, this.peers := id, priority, peers;
      logicalTime := 0;
      lockQueue, pendingAcks, lockHolders, waitForGraph := map[], map[], map[], map[];
    }

    ghost function State(): NodeState
      reads this
    {
      NodeState(id, priority, peers, logicalTime, lockQueue, pendingAcks, lockHolders, waitForGraph)
    }

    // ----- logical clock -----

    method IncrementAndGetLogicalTime() returns (t: int)
      modifies this`logicalTime
      ensures t == logicalTime == old(logicalTime) + 1
    {
      logicalTime := logicalTime + 1;
      t := logicalTime;
    }

    method UpdateAndGetLogicalTime(receivedTime: int) returns (t: int)
      modifies this`logicalTime
      ensures State() == Received(old(State()), receivedTime) && t == logicalTime
      ensures t > receivedTime && t > old(logicalTime)
    {
      logicalTime := (if receivedTime > logicalTime then receivedTime else logicalTime) + 1;
      t := logicalTime;
    }

    // ----- sending -----

    method SendMessage(to: Uuid, body: MessageBody) returns (out: seq<Send>)
      modifies this`logicalTime
      ensures Outcome(State(), out) == SendOne(old(State()), to, body)
    {
      var newTime := IncrementAndGetLogicalTime();
      out := [Send(to, Packet(id, body, newTime))];
    }

    method BroadcastMessage(body: MessageBody) returns (out: seq<Send>, ghost order: seq<Uuid>)
      modifies this`logicalTime
      ensures Enumerates(order, peers.Keys)
      ensures Outcome(State(), out) == Broadcast(old(State()), body, order)
    {
      out, order := [], [];
      var todo := peers.Keys;
      while todo != {}
        invariant todo <= peers.Keys && Enumerates(order, peers.Keys - todo)
        invariant Outcome(State(), out) == Broadcast(old(State()), body, order)
      {
        var peer :| peer in todo;
        todo := todo - {peer};
        ghost var before := order;
        order := order + [peer];
        assert order[..|order| - 1] == before;
        var sent := SendMessage(peer, body);
        out := out + sent;
      }
    }

    // ----- the caller's operations -----

    /** Both the requester and the receiver append the request and sort the queue. */
    method AppendAndSort(resourceID: string, lockRequest: LockRequest)
      modifies this`lockQueue
      ensures lockQueue == old(lockQueue)[resourceID := Enqueue(Queue(old(State()), resourceID), lockRequest)]
    {
      var queue := if resourceID in lockQueue then lockQueue[resourceID] else [];
      lockQueue := lockQueue[resourceID := Enqueue(queue, lockRequest)];
    }

    method RequestLock(resourceID: string, now: int) returns (out: seq<Send>, ghost order: seq<Uuid>)
      modifies this
      ensures Enumerates(order, peers.Keys)
      ensures Outcome(State(), out) == LockState.RequestLock(old(State()), resourceID, now, order)
    {
      var newTime := IncrementAndGetLogicalTime();
      var lockRequest := LockRequest(resourceID, id, newTime, now);
      AppendAndSort(resourceID, lockRequest);
      pendingAcks := pendingAcks[resourceID := {}];
      assert State() == WithRequest(old(State()), resourceID, now);
      out, order := BroadcastMessage(RequestMsg(lockRequest));
    }

    /** The scan that both kinds of release share: cut out the first entry of `node`. */
    method RemoveFirstRequest(resourceID: string, node: Uuid)
      modifies this`lockQueue
      ensures State() == WithoutFirst(old(State()), resourceID, node)
    {
      if resourceID in lockQueue {
        var queue := lockQueue[resourceID];
        for i := 0 to |queue|
          invariant unchanged(this)
          invariant forall k | 0 <= k < i :: queue[k].nodeID != node
        {
          if queue[i].nodeID == node {
            RemoveFirstAt(queue, i, node);
            lockQueue := lockQueue[resourceID := queue[..i] + queue[i + 1..]];
            return;
          }
        }
        RemoveFirstNone(queue, node);
        assert lockQueue[resourceID := queue] == lockQueue;
      }
    }

    method ReleaseLock(resourceID: string) returns (out: seq<Send>, ghost order: seq<Uuid>)
      modifies this
      ensures Enumerates(order, peers.Keys)
      ensures Outcome(State(), out) == LockState.ReleaseLock(old(State()), resourceID, order)
    {
      RemoveFirstRequest(resourceID, id);
      pendingAcks := pendingAcks - {resourceID};
      out, order := BroadcastMessage(ReleaseMsg(resourceID));
    }

    method CanEnterCriticalSection(resourceID: string, now: int) returns (ok: bool)
      modifies this
      ensures State() == DropExpiredHeads(old(State()), resourceID, now, LOCK_TIMEOUT)
      ensures ok <==> HeadWithAllAcks(State(), resourceID)
    {
      while resourceID in lockQueue && |lockQueue[resourceID]| > 0
        invariant DropExpiredHeads(State(), resourceID, now, LOCK_TIMEOUT)
                  == DropExpiredHeads(old(State()), resourceID, now, LOCK_TIMEOUT)
        decreases if resourceID in lockQueue then |lockQueue[resourceID]| else 0
      {
        var first := lockQueue[resourceID][0];
        if now - first.requestedAt <= LOCK_TIMEOUT.duration {
          break;
        }
        lockQueue := lockQueue[resourceID := lockQueue[resourceID][1..]];
        if first.nodeID == id {
          pendingAcks := pendingAcks - {resourceID};
        }
      }
      if resourceID !in lockQueue || |lockQueue[resourceID]| == 0 {
        return false;
      }
      if lockQueue[resourceID][0].nodeID != id {
        return false;
      }
      var receivedAcks := if resourceID in pendingAcks then |pendingAcks[resourceID]| else 0;
      return |peers| == 0 || receivedAcks >= |peers|;
    }

    method EnterCriticalSection(resourceID: string, now: int)
      returns (ok: bool, out: seq<Send>, ghost order: seq<Uuid>)
      modifies this
      ensures ok <==> HeadWithAllAcks(DropExpiredHeads(old(State()), resourceID, now, LOCK_TIMEOUT), resourceID)
      ensures ok ==> Enumerates(order, peers.Keys)
      ensures Outcome(State(), out) == LockState.EnterCriticalSection(old(State()), resourceID, now, LOCK_TIMEOUT, order)
    {
      out, order := [], [];
      ok := CanEnterCriticalSection(resourceID, now);
      if ok {
        out, order := BroadcastMessage(AcquiredMsg(resourceID));
      }
    }

    // ----- message handlers -----

    method HandleLockRequest(from: Uuid, lockRequest: LockRequest) returns (out: seq<Send>)
      modifies this
      ensures Outcome(State(), out) == LockState.HandleLockRequest(old(State()), from, lockRequest)
    {
      out := [];
      var r := lockRequest.resourceID;
      AppendAndSort(r, lockRequest);
      if r in lockHolders && lockHolders[r] != lockRequest.nodeID {
        var waiter := lockRequest.nodeID;
        if waiter !in waitForGraph {
          waitForGraph := waitForGraph[waiter := {}];
        }
        waitForGraph := waitForGraph[waiter := waitForGraph[waiter] + {lockHolders[r]}];
      }
      if from in peers {
        out := SendMessage(from, AckMsg(r));
      }
    }

    method HandleLockAck(from: Uuid, resourceID: string)
      modifies this`pendingAcks
      ensures State() == LockState.HandleLockAck(old(State()), from, resourceID)
    {
      if resourceID !in pendingAcks {
        pendingAcks := pendingAcks[resourceID := {}];
      }
      pendingAcks := pendingAcks[resourceID := pendingAcks[resourceID] + {from}];
    }

    method HandleLockAcquired(from: Uuid, resourceID: string)
      modifies this`lockHolders
      ensures State() == LockState.HandleLockAcquired(old(State()), from, resourceID)
    {
      lockHolders := lockHolders[resourceID := from];
    }

    method HandleLockRelease(from: Uuid, resourceID: string)
      modifies this
      ensures State() == LockState.HandleLockRelease(old(State()), from, resourceID)
    {
      var waiters := waitForGraph.Keys;
      while waiters != {}
        invariant unchanged(`lockQueue) && unchanged(`logicalTime) && unchanged(`pendingAcks) && unchanged(`lockHolders)
        invariant waiters <= waitForGraph.Keys == old(waitForGraph).Keys
        invariant forall w | w in waitForGraph ::
                    waitForGraph[w] == if w in waiters then old(waitForGraph)[w] else old(waitForGraph)[w] - {from}
      {
        var waiter :| waiter in waiters;
        waiters := waiters - {waiter};
        var holders := waitForGraph[waiter];
        while holders != {}
          invariant unchanged(`lockQueue) && unchanged(`logicalTime) && unchanged(`pendingAcks) && unchanged(`lockHolders)
          invariant waitForGraph.Keys == old(waitForGraph).Keys && waiter in waitForGraph
          invariant forall w | w in waitForGraph && w != waiter ::
                      waitForGraph[w] == if w in waiters then old(waitForGraph)[w] else old(waitForGraph)[w] - {from}
          invariant old(waitForGraph)[waiter] - {from} <= waitForGraph[waiter] <= old(waitForGraph)[waiter]
          invariant from in waitForGraph[waiter] ==> from in holders
        {
          var nodeID :| nodeID in holders;
          holders := holders - {nodeID};
          if nodeID == from {
            waitForGraph := waitForGraph[waiter := waitForGraph[waiter] - {nodeID}];
          }
        }
      }
      assert waitForGraph == RemoveHolder(old(waitForGraph), from);
      lockHolders := lockHolders - {resourceID};
      RemoveFirstRequest(resourceID, from);
    }

    method HandleLockAbort() returns (out: seq<Send>, ghost rs: seq<string>, ghost orders: seq<seq<Uuid>>)
      modifies this
      ensures Enumerates(rs, OwnResources(old(State())))
      ensures |orders| == |rs| && forall o | o in orders :: Enumerates(o, peers.Keys)
      ensures Outcome(State(), out) == ReleaseAll(old(State()), rs, orders)
    {
      var resourcesToRelease := [];
      var todo := lockQueue.Keys;
      while todo != {}
        invariant unchanged(this) && todo <= lockQueue.Keys
        invariant Enumerates(resourcesToRelease, OwnResources(State()) - todo)
      {
        var resourceID :| resourceID in todo;
        todo := todo - {resourceID};
        var queue := lockQueue[resourceID];
        ghost var found := resourcesToRelease;
        for i := 0 to |queue|
          invariant unchanged(this) && resourcesToRelease == found
          invariant forall k | 0 <= k < i :: queue[k].nodeID != id
        {
          if queue[i].nodeID == id {
            assert Queue(State(), resourceID)[i].nodeID == id;
            resourcesToRelease := resourcesToRelease + [resourceID];
            break;
          }
        }
      }
      out, rs, orders := [], resourcesToRelease, [];
      for k := 0 to |resourcesToRelease|
        invariant |orders| == k && forall o | o in orders :: Enumerates(o, peers.Keys)
        invariant Outcome(State(), out) == ReleaseAll(old(State()), rs[..k], orders)
      {
        assert rs[..k + 1][..k] == rs[..k];
        ghost var before := orders;
        var sent; ghost var order;
        sent, order := ReleaseLock(resourcesToRelease[k]);
        out, orders := out + sent, orders + [order];
        assert orders[..k] == before;
      }
      assert rs[..|rs|] == rs;
    }

    // ----- the periodic sweep -----

    method CheckLocksTimeouts(now: int)
      returns (out: seq<Send>, ghost rs: seq<string>, ghost orders: seq<seq<Uuid>>)
      modifies this
      ensures Enumerates(rs, old(lockQueue).Keys)
      ensures forall o | o in orders :: Enumerates(o, peers.Keys)
      ensures var swept := SweepQueues(old(State()), rs, now, LOCK_TIMEOUT);
              |orders| == |swept.toRelease|
              && Outcome(State(), out) == BroadcastReleases(swept.node, swept.toRelease, orders)
    {
      var toRelease := [];
      rs := [];
      var todo := lockQueue.Keys;
      while todo != {}
        invariant todo <= old(lockQueue).Keys == lockQueue.Keys
        invariant Enumerates(rs, old(lockQueue).Keys - todo)
        invariant Swept(State(), toRelease) == SweepQueues(old(State()), rs, now, LOCK_TIMEOUT)
      {
        var resourceID :| resourceID in todo;
        todo := todo - {resourceID};
        ghost var before := rs;
        rs := rs + [resourceID];
        assert rs[..|rs| - 1] == before;
        var released := SweepOneQueue(resourceID, now);
        toRelease := toRelease + released;
      }
      out, orders := [], [];
      ghost var swept := SweepQueues(old(State()), rs, now, LOCK_TIMEOUT);
      for k := 0 to |toRelease|
        invariant |orders| == k && forall o | o in orders :: Enumerates(o, peers.Keys)
        invariant Outcome(State(), out) == BroadcastReleases(swept.node, toRelease[..k], orders)
      {
        assert toRelease[..k + 1][..k] == toRelease[..k];
        ghost var before := orders;
        var sent; ghost var order;
        sent, order := BroadcastMessage(ReleaseMsg(toRelease[k]));
        out, orders := out + sent, orders + [order];
        assert orders[..k] == before;
      }
      assert toRelease[..|toRelease|] == toRelease;
    }

    /** The inner loop of the sweep. */
    method SweepOneQueue(resourceID: string, now: int) returns (toRelease: seq<string>)
      requires resourceID in lockQueue
      modifies this
      ensures Swept(State(), toRelease) == SweepResource(old(State()), resourceID, now, LOCK_TIMEOUT)
    {
      var queue := lockQueue[resourceID];
      var newQueue := [];
      toRelease := [];
      for i := 0 to |queue|
        invariant unchanged(`lockQueue) && unchanged(`logicalTime) && unchanged(`lockHolders) && unchanged(`waitForGraph)
        invariant newQueue == Unexpired(queue[..i], now, LOCK_TIMEOUT)
        invariant toRelease == Repeat(resourceID, ExpiredOf(queue[..i], id, now, LOCK_TIMEOUT))
        invariant pendingAcks == if toRelease != [] then old(pendingAcks) - {resourceID} else old(pendingAcks)
      {
        var req := queue[i];
        assert queue[..i + 1][..i] == queue[..i];
        if now - req.requestedAt > LOCK_TIMEOUT.duration {
          if req.nodeID == id {
            pendingAcks := pendingAcks - {resourceID};
            toRelease := toRelease + [resourceID];
          }
          continue;
        }
        newQueue := newQueue + [req];
      }
      assert queue[..|queue|] == queue;
      lockQueue := lockQueue[resourceID := newQueue];
    }

    // ----- deadlocks -----

    method SelectVictim(cyclePath: seq<Uuid>) returns (victim: Uuid)
      ensures Deadlock.IsVictim(State(), cyclePath, victim)
    {
      victim := NIL;
      var lowestPriority := Deadlock.MAX_INT;
      ghost var best := -1;
      for k := 0 to |cyclePath|
        invariant best == -1 ==> victim == NIL && lowestPriority == Deadlock.MAX_INT
        invariant best != -1 ==>
                    && 0 <= best < k && victim == cyclePath[best]
                    && Deadlock.Candidate(State(), victim) && lowestPriority == Deadlock.PriorityOf(State(), victim)
        invariant forall j | 0 <= j < k && Deadlock.Candidate(State(), cyclePath[j]) ::
                    lowestPriority <= Deadlock.PriorityOf(State(), cyclePath[j])
                    && best != -1 && (j < best ==> lowestPriority < Deadlock.PriorityOf(State(), cyclePath[j]))
      {
        var nodeID := cyclePath[k];
        var p: int;
        if nodeID == id {
          p := priority;
        } else if nodeID in peers {
          p := peers[nodeID];
        } else {
          continue;
        }
        if p < lowestPriority {
          lowestPriority, victim, best := p, nodeID, k;
        }
      }
      assert best != -1 ==> Deadlock.FirstLowest(State(), cyclePath, best);
    }

    method SendAbort(victim: Uuid) returns (out: seq<Send>, ghost rs: seq<string>, ghost orders: seq<seq<Uuid>>)
      modifies this
      ensures victim == id ==>
                && Enumerates(rs, OwnResources(old(State())))
                && |orders| == |rs| && (forall o | o in orders :: Enumerates(o, peers.Keys))
                && Outcome(State(), out) == ReleaseAll(old(State()), rs, orders)
      ensures victim != id && victim in peers ==> Outcome(State(), out) == SendOne(old(State()), victim, AbortMsg)
      ensures victim != id && victim !in peers ==> State() == old(State()) && out == []
    {
      out, rs, orders := [], [], [];
      if victim == id {
        out, rs, orders := HandleLockAbort();
      } else if victim in peers {
        out := SendMessage(victim, AbortMsg);
      }
    }

    /** A master with a cyclic graph aborts one victim; nobody else does anything. */
    method CheckDeadlocks(isMaster: bool)
      returns (out: seq<Send>, ghost path: seq<Uuid>, ghost victim: Uuid,
               ghost rs: seq<string>, ghost orders: seq<seq<Uuid>>)
      modifies this
      ensures !isMaster || !CycleSearch.Cyclic(old(waitForGraph)) ==> State() == old(State()) && out == []
      ensures isMaster && CycleSearch.Cyclic(old(waitForGraph)) ==>
                && CycleSearch.ClosesCycle(old(waitForGraph), path)
                && Deadlock.IsVictim(old(State()), path, victim)
                && (victim == id ==>
                      && Enumerates(rs, OwnResources(old(State())))
                      && |orders| == |rs| && (forall o | o in orders :: Enumerates(o, peers.Keys))
                      && Outcome(State(), out) == ReleaseAll(old(State()), rs, orders))
                && (victim != id && victim in peers ==> Outcome(State(), out) == SendOne(old(State()), victim, AbortMsg))
                && (victim != id && victim !in peers ==> State() == old(State()) && out == [])
    {
      out, path, victim, rs, orders := [], [], NIL, [], [];
      if !isMaster {
        return;
      }
      var hasCycle, cyclePath := CycleSearch.HasCycle(waitForGraph);
      if hasCycle {
        path := cyclePath;
        var v := SelectVictim(cyclePath);
        victim := v;
        out, rs, orders := SendAbort(v);
      }
    }
  }
}
