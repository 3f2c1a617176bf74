/** Exactly when at most one node is inside in every run. */
module LockExclusion {
  import opened Uuids
  import opened LockState
  import opened LockSystem
  import opened LockTheorems
  import LockRaces
  import LockStaleAck

  ghost predicate Exclusive(s: Sys, es: seq<Event>, t: Sys, disciplined: bool, i: Uuid, k: Uuid, r: string) {
    Init(s) && Run(s, es, t, disciplined) && (i, r) in t.entered && (k, r) in t.entered ==> i == k
  }

  /** A run that has two nodes inside, whenever requests expire or callers are undisciplined. */
  lemma NotExclusive(limit: Limit, disciplined: bool) returns (s: Sys, es: seq<Event>, t: Sys, i: Uuid, k: Uuid)
    requires (limit.After? && limit.duration >= 0) || (limit == Never && !disciplined)
    ensures s.limit == limit && !Exclusive(s, es, t, disciplined, i, k, "")
  {
    i, k := NIL, RawUuid([1, 0, 0, 0, 0, 0, 0, 0, 0, 0, 0, 0, 0, 0, 0, 0]);
    assert i.bytes[0] != k.bytes[0];
    if limit.After? {
      s, es, t := LockRaces.TwoInsideAfterExpiry(i, k, "", limit.duration);
      AnyRun(s, es, t);
    } else {
      s, es, t := LockStaleAck.TwoInsideByStaleAck(i, k, "");
    }
  }

  /** The critical section has at most one node inside in every run exactly when requests do not expire and
      callers keep the discipline of MayRequest. */
  lemma ExclusionIff(limit: Limit, disciplined: bool)
    requires limit.After? ==> limit.duration >= 0
    ensures (forall s: Sys, es, t, i, k, r | s.limit == limit :: Exclusive(s, es, t, disciplined, i, k, r))
            <==> limit == Never && disciplined
  {
    if limit == Never && disciplined {
      forall s: Sys, es, t, i, k, r | s.limit == limit
        ensures Exclusive(s, es, t, disciplined, i, k, r)
      {
        if Init(s) && Run(s, es, t, true) && (i, r) in t.entered && (k, r) in t.entered {
          AtMostOneInside(s, es, t, i, k, r);
        }
      }
    } else {
      var s, es, t, i, k := NotExclusive(limit, disciplined);
      assert s.limit == limit && !Exclusive(s, es, t, disciplined, i, k, "");
    }
  }
}
