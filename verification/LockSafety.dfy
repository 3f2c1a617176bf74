/** Mutual exclusion over every run, with and without expiry, and the order of the grants. */
module LockSafety {
  import opened Uuids
  import opened Lamport
  import opened LockState
  import opened LockSystem
  import opened LockPairs
  import opened LockEffects

  ghost predicate Shape(s: Sys) {
    && (forall i | i in s.nodes :: s.nodes[i].id == i && s.nodes[i].peers.Keys == s.nodes.Keys - {i})
    && Linked(s)
  }

  ghost predicate LinkedPair(s: Sys, i: Uuid, j: Uuid)
    requires i in s.nodes && j in s.nodes
  {
    PairOk(s.nodes[i], s.nodes[j], Link(s, i, j), Link(s, j, i), s.now, s.limit)
  }

  ghost predicate Protocol(s: Sys) {
    && Shape(s)
    && (forall i | i in s.nodes :: NodeOk(s.nodes[i]))
    && (forall i, j | i in s.nodes && j in s.nodes && i != j :: LinkedPair(s, i, j))
  }

  /** A grant is before every request that is still to be granted at node `n`. */
  ghost predicate Precedes(g: LockRequest, n: NodeState, r: string, now: int, limit: Limit) {
    && g.logicalTime <= n.logicalTime
    && forall p | Own(n, r, p) :: p == g || Expired(p, now, limit) || CompareLockRequests(g, p)
  }

  ghost predicate Ascending(q: seq<LockRequest>) {
    forall k, m | 0 <= k < m < |q| :: CompareLockRequests(q[k], q[m])
  }

  ghost predicate GrantsOkAt(s: Sys, r: string) {
    && Ascending(Grants(s, r))
    && forall g, i | g in Grants(s, r) && i in s.nodes :: Precedes(g, s.nodes[i], r, s.now, s.limit)
  }

  ghost predicate GrantsOk(s: Sys) {
    forall r :: GrantsOkAt(s, r)
  }

  ghost predicate EnteredOk(s: Sys) {
    forall i, r | (i, r) in s.entered ::
      var q := s.entered[(i, r)];
      i in s.nodes && q.nodeID == i && q in Grants(s, r)
      && (Expired(q, s.now, s.limit) || q in Queue(s.nodes[i], r))
  }

  ghost predicate Inv(s: Sys) {
    Protocol(s) && GrantsOk(s) && EnteredOk(s)
  }

  lemma InitInv(s: Sys)
    requires Init(s)
    ensures Inv(s)
  {
    forall i | i in s.nodes
      ensures NodeOk(s.nodes[i])
    {
      forall r
        ensures NodeOkAt(s.nodes[i], r)
      {
        assert Queue(s.nodes[i], r) == [] && Acks(s.nodes[i], r) == {};
      }
    }
    forall i, j | i in s.nodes && j in s.nodes && i != j
      ensures LinkedPair(s, i, j)
    {
      assert Link(s, i, j) == [] && Link(s, j, i) == [];
      assert forall r :: Queue(s.nodes[i], r) == [];
    }
    assert forall r :: Grants(s, r) == [];
  }

  // ----- posting -----

  lemma PostLinks(s: Sys, i: Uuid, o: Outcome)
    requires Shape(s) && i in s.nodes && o.node.id == i && o.node.peers == s.nodes[i].peers
    ensures Shape(Post(s, i, o))
    ensures forall x, y | x in s.nodes && y in s.nodes ::
              Link(Post(s, i, o), x, y) == if x == i then Link(s, i, y) + PacketsTo(o.out, y) else Link(s, x, y)
  {
  }

  lemma QuietPair(s: Sys, i: Uuid, o: Outcome, rs: seq<string>, y: Uuid)
    requires Protocol(s) && i in s.nodes && y in s.nodes && y != i
    requires Shrinks(s.nodes[i], o.node, rs, s.now, s.limit) && HarmlessOut(o.node, o.out)
    ensures LinkedPair(Post(s, i, o), i, y) && LinkedPair(Post(s, i, o), y, i)
  {
    PostLinks(s, i, o);
    HarmlessTo(o.node, o.out, y);
    assert LinkedPair(s, i, y) && LinkedPair(s, y, i);
    var ab, ba := Link(s, i, y), Link(s, y, i);
    SenderShrinks(s.nodes[i], o.node, s.nodes[y], ab, PacketsTo(o.out, y), ba, rs, s.now, s.limit);
    ReceiverShrinks(s.nodes[y], s.nodes[i], o.node, ba, ab, PacketsTo(o.out, y), rs, s.now, s.limit);
  }

  /** A step that only loses entries and sends harmless messages keeps the protocol. */
  lemma QuietProtocol(s: Sys, i: Uuid, o: Outcome, rs: seq<string>)
    requires Protocol(s) && i in s.nodes
    requires Shrinks(s.nodes[i], o.node, rs, s.now, s.limit) && NodeOk(o.node) && HarmlessOut(o.node, o.out)
    ensures Protocol(Post(s, i, o))
  {
    PostLinks(s, i, o);
    forall x, y | x in s.nodes && y in s.nodes && x != y
      ensures LinkedPair(Post(s, i, o), x, y)
    {
      if x == i {
        QuietPair(s, i, o, rs, y);
      } else if y == i {
        QuietPair(s, i, o, rs, x);
      } else {
        OtherPair(s, i, o, x, y);
      }
    }
  }

  /** Such a step keeps the history, if who releases is no longer inside. */
  lemma QuietHistory(s: Sys, s': Sys, i: Uuid, rs: seq<string>)
    requires GrantsOk(s) && EnteredOk(s) && i in s.nodes && s.nodes[i].id == i
    requires i in s'.nodes && s'.nodes == s.nodes[i := s'.nodes[i]] && s'.grants == s.grants
    requires s'.now == s.now && s'.limit == s.limit
    requires Shrinks(s.nodes[i], s'.nodes[i], rs, s.now, s.limit)
    requires s'.entered.Keys <= s.entered.Keys && forall k | k in s'.entered :: s'.entered[k] == s.entered[k]
    requires forall r | r in rs :: (i, r) !in s'.entered
    ensures GrantsOk(s') && EnteredOk(s')
  {
    forall r
      ensures GrantsOkAt(s', r)
    {
      assert Grants(s', r) == Grants(s, r) && GrantsOkAt(s, r);
      assert ShrinksAt(s.nodes[i], s'.nodes[i], r, r in rs, s.now, s.limit);
      forall g, j | g in Grants(s', r) && j in s'.nodes
        ensures Precedes(g, s'.nodes[j], r, s'.now, s'.limit)
      {
        assert Precedes(g, s.nodes[j], r, s.now, s.limit);
      }
    }
    forall j, r | (j, r) in s'.entered
      ensures j in s'.nodes && s'.entered[(j, r)].nodeID == j && s'.entered[(j, r)] in Grants(s', r)
      ensures Expired(s'.entered[(j, r)], s'.now, s'.limit) || s'.entered[(j, r)] in Queue(s'.nodes[j], r)
    {
      assert (j, r) in s.entered;
      assert ShrinksAt(s.nodes[i], s'.nodes[i], r, r in rs, s.now, s.limit);
    }
  }

  lemma LeftNothing(s: Sys, i: Uuid)
    ensures Left(s, i, []) == s
  {
    assert Left(s, i, []).entered == s.entered;
  }

  lemma QuietStep(s: Sys, i: Uuid, o: Outcome, rs: seq<string>)
    requires Inv(s) && i in s.nodes
    requires Shrinks(s.nodes[i], o.node, rs, s.now, s.limit) && NodeOk(o.node) && HarmlessOut(o.node, o.out)
    ensures Inv(Left(Post(s, i, o), i, rs))
    ensures rs == [] ==> Inv(Post(s, i, o))
  {
    var s1 := Post(s, i, o);
    QuietProtocol(s, i, o, rs);
    ProtocolSame(s1, Left(s1, i, rs));
    QuietHistory(s, Left(s1, i, rs), i, rs);
    LeftNothing(s1, i);
  }

  lemma ProtocolSame(s: Sys, s': Sys)
    requires Protocol(s) && s'.nodes == s.nodes && s'.links == s.links && s'.now == s.now && s'.limit == s.limit
    ensures Protocol(s')
  {
    forall x, y | x in s'.nodes && y in s'.nodes && x != y
      ensures LinkedPair(s', x, y)
    {
      assert LinkedPair(s, x, y);
    }
  }

  lemma TimeStep(s: Sys, later: int)
    requires Inv(s) && later >= s.now
    ensures Inv(s.(now := later))
  {
    var s' := s.(now := later);
    forall x, y | x in s'.nodes && y in s'.nodes && x != y
      ensures LinkedPair(s', x, y)
    {
      assert LinkedPair(s, x, y);
      TimeKeepsPair(s.nodes[x], s.nodes[y], Link(s, x, y), Link(s, y, x), s.now, later, s.limit);
    }
    forall r
      ensures GrantsOkAt(s', r)
    {
      assert Grants(s', r) == Grants(s, r) && GrantsOkAt(s, r);
      forall g, j | g in Grants(s', r) && j in s'.nodes
        ensures Precedes(g, s'.nodes[j], r, s'.now, s'.limit)
      {
        assert Precedes(g, s.nodes[j], r, s.now, s.limit);
      }
    }
  }

  // ----- a request -----

  lemma WithRequestOkAt(n: NodeState, r: string, now: int)
    requires NodeOkAt(n, r) && NoOwn(n, r)
    ensures NodeOkAt(WithRequest(n, r, now), r)
  {
    var req := NewRequest(n, r, now);
    EnqueueEffect(Queue(n, r), req);
    EnqueueOneOf(Queue(n, r), req, n.id);
    assert Queue(WithRequest(n, r, now), r) == Enqueue(Queue(n, r), req);
  }

  lemma WithRequestOk(n: NodeState, r: string, now: int)
    requires NodeOk(n) && NoOwn(n, r)
    ensures NodeOk(WithRequest(n, r, now))
  {
    forall r'
      ensures NodeOkAt(WithRequest(n, r, now), r')
    {
      assert NodeOkAt(n, r');
      if r' == r {
        WithRequestOkAt(n, r, now);
      } else {
        assert Queue(WithRequest(n, r, now), r') == Queue(n, r');
      }
    }
  }

  lemma WithRequestRequests(n: NodeState, r: string, now: int)
    ensures Requested(n, WithRequest(n, r, now), r, NewRequest(n, r, now))
  {
    EnqueueEffect(Queue(n, r), NewRequest(n, r, now));
  }

  /** What each peer gets of a request: one packet with a later time. */
  ghost predicate RequestCopy(pks: seq<Packet>, req: LockRequest) {
    OneCopy(pks, req.nodeID, RequestMsg(req), req.logicalTime)
  }

  lemma RequestedByLock(n: NodeState, r: string, now: int, order: seq<Uuid>)
    requires NodeOk(n) && NoOwn(n, r) && Enumerates(order, n.peers.Keys)
    ensures var o := RequestLock(n, r, now, order);
            && Requested(n, o.node, r, NewRequest(n, r, now)) && NodeOk(o.node) && o.node.peers == n.peers
            && (forall j | j in n.peers :: RequestCopy(PacketsTo(o.out, j), NewRequest(n, r, now)))
  {
    var n1 := WithRequest(n, r, now);
    WithRequestOk(n, r, now);
    WithRequestRequests(n, r, now);
    BroadcastEffect(n1, RequestMsg(NewRequest(n, r, now)), order);
    ClockShrinks(n1, RequestLock(n, r, now, order).node.logicalTime, [], now, Never);
  }

  lemma RequestPairOut(s: Sys, i: Uuid, o: Outcome, r: string, req: LockRequest, y: Uuid)
    requires Protocol(s) && i in s.nodes && y in s.nodes && y != i && o.node.peers == s.nodes[i].peers
    requires NoOwn(s.nodes[i], r) && NothingPending(Link(s, i, y), Link(s, y, i), r)
    requires Requested(s.nodes[i], o.node, r, req) && RequestCopy(PacketsTo(o.out, y), req)
    ensures LinkedPair(Post(s, i, o), i, y)
  {
    PostLinks(s, i, o);
    assert LinkedPair(s, i, y);
    var pks := PacketsTo(o.out, y);
    assert pks == [pks[0]];
    SenderRequests(s.nodes[i], o.node, s.nodes[y], Link(s, i, y), pks[0], Link(s, y, i), r, req, s.now, s.limit);
  }

  lemma RequestPairIn(s: Sys, i: Uuid, o: Outcome, r: string, req: LockRequest, x: Uuid)
    requires Protocol(s) && i in s.nodes && x in s.nodes && x != i && o.node.peers == s.nodes[i].peers
    requires Requested(s.nodes[i], o.node, r, req) && RequestCopy(PacketsTo(o.out, x), req)
    ensures LinkedPair(Post(s, i, o), x, i)
  {
    PostLinks(s, i, o);
    assert LinkedPair(s, x, i);
    var pks := PacketsTo(o.out, x);
    assert pks == [pks[0]];
    ReceiverRequests(s.nodes[x], s.nodes[i], o.node, Link(s, x, i), Link(s, i, x), pks[0], r, req, s.now, s.limit);
  }

  /** Pairs without the node that posts are as before. */
  lemma OtherPair(s: Sys, i: Uuid, o: Outcome, x: Uuid, y: Uuid)
    requires Protocol(s) && i in s.nodes && x in s.nodes && y in s.nodes && x != y && x != i && y != i
    requires o.node.id == i && o.node.peers == s.nodes[i].peers
    ensures LinkedPair(Post(s, i, o), x, y)
  {
    PostLinks(s, i, o);
    assert LinkedPair(s, x, y);
  }

  lemma RequestProtocol(s: Sys, i: Uuid, r: string, order: seq<Uuid>)
    requires Protocol(s) && Enabled(s, CallRequestLock(i, r, order)) && MayRequest(s, i, r)
    ensures Protocol(Next(s, CallRequestLock(i, r, order)))
  {
    var o := RequestLock(s.nodes[i], r, s.now, order);
    RequestedByLock(s.nodes[i], r, s.now, order);
    PostLinks(s, i, o);
    forall x, y | x in s.nodes && y in s.nodes && x != y
      ensures LinkedPair(Post(s, i, o), x, y)
    {
      var req := NewRequest(s.nodes[i], r, s.now);
      if x == i {
        RequestPairOut(s, i, o, r, req, y);
      } else if y == i {
        RequestPairIn(s, i, o, r, req, x);
      } else {
        OtherPair(s, i, o, x, y);
      }
    }
  }

  lemma RequestHistory(s: Sys, i: Uuid, r: string, order: seq<Uuid>)
    requires Inv(s) && Enabled(s, CallRequestLock(i, r, order)) && MayRequest(s, i, r)
    ensures var s' := Next(s, CallRequestLock(i, r, order)); GrantsOk(s') && EnteredOk(s')
  {
    var s' := Next(s, CallRequestLock(i, r, order));
    RequestedByLock(s.nodes[i], r, s.now, order);
    forall r'
      ensures GrantsOkAt(s', r')
    {
      assert Grants(s', r') == Grants(s, r') && GrantsOkAt(s, r');
      forall g, j | g in Grants(s', r') && j in s'.nodes
        ensures Precedes(g, s'.nodes[j], r', s'.now, s'.limit)
      {
        assert Precedes(g, s.nodes[j], r', s.now, s.limit);
      }
    }
  }
}
