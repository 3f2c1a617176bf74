/** The delivery of a message keeps the protocol. */
module LockDelivery {
  import opened Uuids
  import opened Lamport
  import opened LockState
  import opened LockSystem
  import opened LockPairs
  import opened LockEffects
  import opened LockSafety

  /** What handling a message of `j` means for the node and for third nodes. */
  ghost predicate Handled(n: NodeState, n': NodeState, j: Uuid) {
    && NodeOk(n') && n'.peers == n.peers
    && forall x | x != j :: SameFor(n, n', x)
  }

  /** `n'` is `n` with a foreign request in its queue and a later clock. */
  ghost predicate Grown(n: NodeState, n': NodeState, req: LockRequest) {
    && n'.id == n.id && n'.peers == n.peers && n'.logicalTime >= n.logicalTime
    && req.nodeID != n.id && req.logicalTime <= n'.logicalTime
    && n'.pendingAcks == n.pendingAcks
    && n'.lockQueue == n.lockQueue[req.resourceID := Enqueue(Queue(n, req.resourceID), req)]
  }

  lemma GrownEnqueued(n: NodeState, n': NodeState, req: LockRequest)
    requires Grown(n, n', req)
    ensures Enqueued(n, n', req)
    ensures forall x | x != req.nodeID :: SameFor(n, n', x)
  {
    EnqueueEffect(Queue(n, req.resourceID), req);
    assert Queue(n', req.resourceID) == Enqueue(Queue(n, req.resourceID), req);
    assert forall r :: Acks(n', r) == Acks(n, r) && (r != req.resourceID ==> Queue(n', r) == Queue(n, r));
  }

  lemma GrownOkAt(n: NodeState, n': NodeState, req: LockRequest, r: string)
    requires Grown(n, n', req) && NodeOkAt(n, r)
    ensures NodeOkAt(n', r)
  {
    assert Acks(n', r) == Acks(n, r);
    if r == req.resourceID {
      EnqueueEffect(Queue(n, r), req);
      EnqueueOneOf(Queue(n, r), req, n.id);
      assert Queue(n', r) == Enqueue(Queue(n, r), req);
    } else {
      assert Queue(n', r) == Queue(n, r);
    }
  }

  lemma GrownOk(n: NodeState, n': NodeState, req: LockRequest)
    requires Grown(n, n', req) && NodeOk(n)
    ensures NodeOk(n')
  {
    forall r
      ensures NodeOkAt(n', r)
    {
      assert NodeOkAt(n, r);
      GrownOkAt(n, n', req, r);
    }
  }

  lemma RequestHandled(n: NodeState, from: Uuid, req: LockRequest)
    ensures var n' := HandleLockRequest(n, from, req).node;
            && n'.id == n.id && n'.peers == n.peers && n'.pendingAcks == n.pendingAcks && n'.logicalTime >= n.logicalTime
            && n'.lockQueue == n.lockQueue[req.resourceID := Enqueue(Queue(n, req.resourceID), req)]
  {
  }

  lemma RequestGrows(n: NodeState, pk: Packet, req: LockRequest)
    requires pk.body == RequestMsg(req) && req.nodeID == pk.from && pk.from != n.id && req.logicalTime < pk.logicalTime
    ensures Grown(n, Handle(n, pk).node, req) && Handle(n, pk).node.logicalTime > pk.logicalTime
  {
    var n1 := Received(n, pk.logicalTime);
    RequestHandled(n1, pk.from, req);
  }

  lemma RequestAcked(n: NodeState, pk: Packet, req: LockRequest)
    requires pk.body == RequestMsg(req) && pk.from in n.peers
    ensures exists time :: Handle(n, pk).out == [Send(pk.from, Packet(n.id, AckMsg(req.resourceID), time))]
  {
    var time := Handle(n, pk).node.logicalTime;
    assert Handle(n, pk).out == [Send(pk.from, Packet(n.id, AckMsg(req.resourceID), time))];
  }

  lemma HandleRequestEffect(n: NodeState, pk: Packet, req: LockRequest)
    requires NodeOk(n) && pk.body == RequestMsg(req) && req.nodeID == pk.from && pk.from != n.id
    requires req.logicalTime < pk.logicalTime
    ensures var o := Handle(n, pk);
            Enqueued(n, o.node, req) && o.node.logicalTime > pk.logicalTime && Handled(n, o.node, pk.from)
    ensures pk.from in n.peers ==>
              exists time :: Handle(n, pk).out == [Send(pk.from, Packet(n.id, AckMsg(req.resourceID), time))]
  {
    var n' := Handle(n, pk).node;
    RequestGrows(n, pk, req);
    if pk.from in n.peers {
      RequestAcked(n, pk, req);
    }
    GrownEnqueued(n, n', req);
    GrownOk(n, n', req);
  }

  lemma HandleAckEffect(n: NodeState, pk: Packet, r: string)
    requires NodeOk(n) && pk.body == AckMsg(r) && pk.from in n.peers
    ensures var o := Handle(n, pk);
            o.out == [] && o.node.lockQueue == n.lockQueue && Handled(n, o.node, pk.from)
            && o.node.logicalTime >= n.logicalTime
            && forall r' :: Acks(o.node, r') == if r' == r then Acks(n, r) + {pk.from} else Acks(n, r')
  {
    var n' := Handle(n, pk).node;
    assert forall r' :: Acks(n', r') == if r' == r then Acks(n, r) + {pk.from} else Acks(n, r');
    forall r'
      ensures NodeOkAt(n', r')
    {
      assert NodeOkAt(n, r') && Queue(n', r') == Queue(n, r');
    }
  }

  /** `n'` is `n` without the first entry of `from` on `r`. */
  ghost predicate Reduced(n: NodeState, n': NodeState, from: Uuid, r: string) {
    && n'.id == n.id && n'.peers == n.peers && n'.logicalTime >= n.logicalTime && n'.pendingAcks == n.pendingAcks
    && Queue(n', r) == RemoveFirst(Queue(n, r), from)
    && forall r' | r' != r :: Queue(n', r') == Queue(n, r')
  }

  lemma ReducedOk(n: NodeState, n': NodeState, from: Uuid, r: string)
    requires NodeOk(n) && Reduced(n, n', from, r) && from != n.id
    ensures NodeOk(n')
  {
    forall r'
      ensures NodeOkAt(n', r')
    {
      assert NodeOkAt(n, r') && Acks(n', r') == Acks(n, r');
      if r' == r {
        RemoveFirstEffect(Queue(n, r), from);
        RemoveFirstOf(Queue(n, r), from, n.id);
      }
    }
  }

  lemma ReducedSame(n: NodeState, n': NodeState, from: Uuid, r: string)
    requires NodeOk(n) && Reduced(n, n', from, r) && from != n.id
    ensures SameOwn(n, n') && forall x | x != from :: SameFor(n, n', x)
    ensures forall r', p | r' != r && p in Queue(n, r') :: p in Queue(n', r')
  {
    assert NodeOkAt(n, r);
    RemoveFirstEffect(Queue(n, r), from);
    assert forall r' :: Acks(n', r') == Acks(n, r');
  }

  lemma HandleReleaseEffect(n: NodeState, pk: Packet, r: string)
    requires NodeOk(n) && pk.body == ReleaseMsg(r) && pk.from != n.id
    ensures var o := Handle(n, pk);
            o.out == [] && SameOwn(n, o.node) && Handled(n, o.node, pk.from)
            && forall r', p | r' != r && p in Queue(n, r') :: p in Queue(o.node, r')
  {
    var n' := Handle(n, pk).node;
    assert Reduced(n, n', pk.from, r);
    ReducedOk(n, n', pk.from, r);
    ReducedSame(n, n', pk.from, r);
  }

  lemma HandleOtherEffect(n: NodeState, pk: Packet)
    requires NodeOk(n) && Neutral(pk.body)
    ensures var o := Handle(n, pk);
            o.out == [] && SameOwn(n, o.node) && Handled(n, o.node, pk.from) && o.node.lockQueue == n.lockQueue
  {
    var n' := Handle(n, pk).node;
    assert forall r' :: Acks(n', r') == Acks(n, r') && Queue(n', r') == Queue(n, r');
    forall r'
      ensures NodeOkAt(n', r')
    {
      assert NodeOkAt(n, r');
    }
  }

  /** The two nodes of the link, before and after. */
  lemma DeliveryPair(a: NodeState, b: NodeState, ab: seq<Packet>, ba: seq<Packet>, now: int, limit: Limit)
    requires PairOk(a, b, ab, ba, now, limit) && PairOk(b, a, ba, ab, now, limit) && a.id != b.id
    requires NodeOk(a) && NodeOk(b) && b.id in a.peers
    requires ba != []
    ensures var o := Handle(a, ba[0]); var ext := PacketsTo(o.out, b.id);
            && PairOk(o.node, b, ab + ext, ba[1..], now, limit)
            && PairOk(b, o.node, ba[1..], ab + ext, now, limit)
    ensures Handled(a, Handle(a, ba[0]).node, b.id)
    ensures forall x | x != b.id :: PacketsTo(Handle(a, ba[0]).out, x) == []
  {
    var pk := ba[0];
    var o := Handle(a, pk);
    var ext := PacketsTo(o.out, b.id);
    match pk.body
    case RequestMsg(req) =>
      HandleRequestEffect(a, pk, req);
      var time :| o.out == [Send(b.id, Packet(a.id, AckMsg(req.resourceID), time))];
      forall x
        ensures PacketsTo(o.out, x) == if x == b.id then [o.out[0].packet] else []
      {
        PacketsToOne(b.id, o.out[0].packet, x);
      }
      DeliverRequest(a, o.node, b, ab, o.out[0].packet, ba, req, now, limit);
    case AckMsg(r) =>
      HandleAckEffect(a, pk, r);
      assert ab + ext == ab;
      DeliverAck(a, o.node, b, ab, ba, r, now, limit);
    case ReleaseMsg(r) =>
      HandleReleaseEffect(a, pk, r);
      assert ab + ext == ab;
      DeliverOther(a, o.node, b, ab, ba, now, limit);
    case _ =>
      HandleOtherEffect(a, pk);
      assert ab + ext == ab;
      DeliverOther(a, o.node, b, ab, ba, now, limit);
  }

  lemma DeliverLinks(s: Sys, j: Uuid, i: Uuid, o: Outcome)
    requires Shape(s) && i in s.nodes && j in s.nodes && Link(s, j, i) != [] && i != j
    requires o.node.id == i && o.node.peers == s.nodes[i].peers
    ensures var s' := Post(Pop(s, j, i), i, o);
            && Shape(s')
            && Link(s', j, i) == Link(s, j, i)[1..]
            && (forall y | y in s.nodes :: Link(s', i, y) == Link(s, i, y) + PacketsTo(o.out, y))
            && (forall x, y | x in s.nodes && y in s.nodes && x != i && !(x == j && y == i) ::
                  Link(s', x, y) == Link(s, x, y))
  {
    var s1 := Pop(s, j, i);
    assert forall x, y | x in s.nodes && y in s.nodes ::
        Link(s1, x, y) == if x == j && y == i then Link(s, j, i)[1..] else Link(s, x, y);
    PostLinks(s1, i, o);
  }

  lemma ThirdPair(s: Sys, j: Uuid, i: Uuid, o: Outcome, x: Uuid)
    requires Protocol(s) && i in s.nodes && j in s.nodes && x in s.nodes && i != j && x != i && x != j
    requires Link(s, j, i) != [] && Handled(s.nodes[i], o.node, j) && PacketsTo(o.out, x) == []
    ensures var s' := Post(Pop(s, j, i), i, o); LinkedPair(s', i, x) && LinkedPair(s', x, i)
  {
    assert SameFor(s.nodes[i], o.node, x);
    DeliverLinks(s, j, i, o);
    assert LinkedPair(s, i, x) && LinkedPair(s, x, i);
    assert Link(s, i, x) + [] == Link(s, i, x);
    SenderSame(s.nodes[i], o.node, s.nodes[x], Link(s, i, x), Link(s, x, i), s.now, s.limit);
    ReceiverSame(s.nodes[x], s.nodes[i], o.node, Link(s, x, i), Link(s, i, x), s.now, s.limit);
  }

  lemma DeliveredPair(s: Sys, j: Uuid, i: Uuid)
    requires Protocol(s) && i in s.nodes && j in s.nodes && i != j && Link(s, j, i) != []
    ensures var o := Handle(s.nodes[i], Link(s, j, i)[0]); var s' := Post(Pop(s, j, i), i, o);
            && LinkedPair(s', i, j) && LinkedPair(s', j, i)
            && Handled(s.nodes[i], o.node, j)
            && forall x | x != j :: PacketsTo(o.out, x) == []
  {
    var o := Handle(s.nodes[i], Link(s, j, i)[0]);
    assert LinkedPair(s, i, j) && LinkedPair(s, j, i);
    DeliveryPair(s.nodes[i], s.nodes[j], Link(s, i, j), Link(s, j, i), s.now, s.limit);
    DeliverLinks(s, j, i, o);
  }

  lemma BystanderPair(s: Sys, j: Uuid, i: Uuid, o: Outcome, x: Uuid, y: Uuid)
    requires Protocol(s) && i in s.nodes && j in s.nodes && x in s.nodes && y in s.nodes && i != j
    requires Link(s, j, i) != [] && x != y && x != i && y != i
    requires o.node.id == i && o.node.peers == s.nodes[i].peers
    ensures LinkedPair(Post(Pop(s, j, i), i, o), x, y)
  {
    DeliverLinks(s, j, i, o);
    assert LinkedPair(s, x, y);
  }

  lemma HandledKeepsId(n: NodeState, n': NodeState, j: Uuid)
    requires Handled(n, n', j)
    ensures n'.id == n.id && n'.peers == n.peers && n'.logicalTime >= n.logicalTime && NodeOk(n')
    ensures j != n.id ==> forall r, p: LockRequest | p.nodeID == n.id :: p in Queue(n', r) <==> p in Queue(n, r)
  {
    var x := SomeOther(j);
    assert SameFor(n, n', x);
  }

  lemma DeliveredLinkedPair(s: Sys, j: Uuid, i: Uuid, x: Uuid, y: Uuid)
    requires Protocol(s) && i in s.nodes && j in s.nodes && i != j && Link(s, j, i) != []
    requires x in s.nodes && y in s.nodes && x != y
    ensures LinkedPair(Taken(s, j, i), x, y)
  {
    var o := Handle(s.nodes[i], Link(s, j, i)[0]);
    DeliveredPair(s, j, i);
    if x == i && y != j {
      ThirdPair(s, j, i, o, y);
    } else if y == i && x != j {
      ThirdPair(s, j, i, o, x);
    } else if x != i && y != i {
      HandledKeepsId(s.nodes[i], o.node, j);
      BystanderPair(s, j, i, o, x, y);
    }
  }

  lemma DeliverShape(s: Sys, j: Uuid, i: Uuid)
    requires Protocol(s) && i in s.nodes && j in s.nodes && i != j && Link(s, j, i) != []
    ensures Shape(Taken(s, j, i))
    ensures Handled(s.nodes[i], Handle(s.nodes[i], Link(s, j, i)[0]).node, j)
  {
    var o := Handle(s.nodes[i], Link(s, j, i)[0]);
    DeliveredPair(s, j, i);
    HandledKeepsId(s.nodes[i], o.node, j);
    DeliverLinks(s, j, i, o);
  }

  lemma DeliverProtocol(s: Sys, j: Uuid, i: Uuid)
    requires Protocol(s) && i in s.nodes && j in s.nodes && i != j && Link(s, j, i) != []
    ensures Protocol(Taken(s, j, i))
    ensures Handled(s.nodes[i], Handle(s.nodes[i], Link(s, j, i)[0]).node, j)
  {
    DeliverShape(s, j, i);
    HandledKeepsId(s.nodes[i], Handle(s.nodes[i], Link(s, j, i)[0]).node, j);
    forall x, y | x in s.nodes && y in s.nodes && x != y
      ensures LinkedPair(Taken(s, j, i), x, y)
    {
      DeliveredLinkedPair(s, j, i, x, y);
    }
  }

  /** A node whose own entries stay and whose clock does not run backwards keeps the history. */
  lemma SameHistory(s: Sys, s': Sys, i: Uuid)
    requires GrantsOk(s) && EnteredOk(s) && i in s.nodes && s.nodes[i].id == i
    requires i in s'.nodes && s'.nodes == s.nodes[i := s'.nodes[i]] && s'.grants == s.grants && s'.entered == s.entered
    requires s'.now == s.now && s'.limit == s.limit
    requires s'.nodes[i].id == i && s'.nodes[i].logicalTime >= s.nodes[i].logicalTime
    requires forall r, p: LockRequest | p.nodeID == i :: p in Queue(s'.nodes[i], r) <==> p in Queue(s.nodes[i], r)
    ensures GrantsOk(s') && EnteredOk(s')
  {
    forall r
      ensures GrantsOkAt(s', r)
    {
      assert Grants(s', r) == Grants(s, r) && GrantsOkAt(s, r);
      forall g, j | g in Grants(s', r) && j in s'.nodes
        ensures Precedes(g, s'.nodes[j], r, s'.now, s'.limit)
      {
        assert Precedes(g, s.nodes[j], r, s.now, s.limit);
      }
    }
  }

  lemma TakenInv(s: Sys, j: Uuid, i: Uuid)
    requires Inv(s) && i in s.nodes && j in s.nodes && i != j && Link(s, j, i) != []
    ensures Inv(Taken(s, j, i))
  {
    DeliverProtocol(s, j, i);
    HandledKeepsId(s.nodes[i], Taken(s, j, i).nodes[i], j);
    SameHistory(s, Taken(s, j, i), i);
  }

  lemma SomeOther(j: Uuid) returns (x: Uuid)
    ensures x != j
  {
    var ones: Uuid := RawUuid([1, 1, 1, 1, 1, 1, 1, 1, 1, 1, 1, 1, 1, 1, 1, 1]);
    if j == NIL {
      assert ones.bytes[0] == 1;
      x := ones;
    } else {
      x := NIL;
    }
  }
}
