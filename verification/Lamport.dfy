/** The comparisons of Lamport timestamps (backend/dfs/common/lamport.go). */
module Lamport {
  import opened Uuids
  import Sorting

  /** A queued lock request; `requestedAt` is wall-clock time in nanoseconds. */
  datatype LockRequest = LockRequest(resourceID: string, nodeID: Uuid, logicalTime: int, requestedAt: int)

  function CompareLamport(t1: int, id1: Uuid, t2: int, id2: Uuid): int {
    if t1 < t2 then -1
    else if t1 > t2 then 1
    else if LexLess(Text(id1), Text(id2)) then -1
    else if LexLess(Text(id2), Text(id1)) then 1
    else 0
  }

  predicate LessLamport(t1: int, id1: Uuid, t2: int, id2: Uuid) {
    CompareLamport(t1, id1, t2, id2) == -1
  }

  predicate CompareLockRequests(a: LockRequest, b: LockRequest) {
    if a.logicalTime != b.logicalTime then a.logicalTime < b.logicalTime
    else LexLess(Text(a.nodeID), Text(b.nodeID))
  }

  /** The comparison that sorts the lock queues is the one on timestamps, it ties only
      requests with the same time and node, and the three outcomes exclude each other. */
  lemma CompareLockRequestsTotal(a: LockRequest, b: LockRequest)
    ensures CompareLockRequests(a, b) <==> LessLamport(a.logicalTime, a.nodeID, b.logicalTime, b.nodeID)
    ensures CompareLamport(a.logicalTime, a.nodeID, b.logicalTime, b.nodeID)
            == -CompareLamport(b.logicalTime, b.nodeID, a.logicalTime, a.nodeID)
    ensures CompareLamport(a.logicalTime, a.nodeID, b.logicalTime, b.nodeID) == 0
            <==> a.logicalTime == b.logicalTime && a.nodeID == b.nodeID
    ensures !(CompareLockRequests(a, b) && CompareLockRequests(b, a))
    ensures CompareLockRequests(a, b) || CompareLockRequests(b, a)
            || (a.logicalTime == b.logicalTime && a.nodeID == b.nodeID)
  {
    IdLessTotal(a.nodeID, b.nodeID);
  }

  lemma CompareLockRequestsTransitive(a: LockRequest, b: LockRequest, c: LockRequest)
    requires CompareLockRequests(a, b) && CompareLockRequests(b, c)
    ensures CompareLockRequests(a, c)
  {
    if a.logicalTime == b.logicalTime == c.logicalTime {
      IdLessTransitive(a.nodeID, b.nodeID, c.nodeID);
    }
  }

  /** CompareLockRequests meets what the sort asks of it. */
  lemma CompareLockRequestsOrder()
    ensures Sorting.Order(CompareLockRequests)
  {
    forall a, b | CompareLockRequests(a, b)
      ensures !CompareLockRequests(b, a)
    {
      CompareLockRequestsTotal(a, b);
    }
    forall a, b, c | !CompareLockRequests(a, b) && !CompareLockRequests(b, c)
      ensures !CompareLockRequests(a, c)
    {
      CompareLockRequestsTotal(a, b);
      CompareLockRequestsTotal(b, c);
      if CompareLockRequests(a, c) && CompareLockRequests(b, a) {
        CompareLockRequestsTransitive(b, a, c);
      }
    }
  }
}
