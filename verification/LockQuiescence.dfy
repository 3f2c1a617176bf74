/** Without expiry, the queues of two nodes differ by the messages between them and by nothing else;
    when the links are empty all queues agree and the owner of the head may enter. */
module LockQuiescence {
  import opened Uuids
  import opened Lamport
  import opened LockState
  import opened LockSystem
  import opened LockPairs
  import opened LockEffects
  import opened LockSafety
  import opened LockDelivery
  import opened LockTheorems
  import Sorting

  /** What one message does to the receiver's entries of its sender on `r`. */
  function Applied(cur: seq<LockRequest>, body: MessageBody, r: string): seq<LockRequest> {
    if body.RequestMsg? && body.request.resourceID == r then Sorting.Insert(cur, body.request, CompareLockRequests)
    else if body == ReleaseMsg(r) && cur != [] then cur[1..]
    else cur
  }

  /** The entries of the sender at the receiver once the whole link is delivered. */
  function Replay(cur: seq<LockRequest>, link: seq<Packet>, r: string): seq<LockRequest> {
    if link == [] then cur
    else Applied(Replay(cur, link[..|link| - 1], r), link[|link| - 1].body, r)
  }

  lemma {:induction false} ReplayConcat(cur: seq<LockRequest>, l1: seq<Packet>, l2: seq<Packet>, r: string)
    ensures Replay(cur, l1 + l2, r) == Replay(Replay(cur, l1, r), l2, r)
  {
    if l2 == [] {
      assert l1 + l2 == l1;
    } else {
      assert (l1 + l2)[..|l1 + l2| - 1] == l1 + l2[..|l2| - 1];
      ReplayConcat(cur, l1, l2[..|l2| - 1], r);
    }
  }

  lemma ReplayOne(cur: seq<LockRequest>, p: Packet, r: string)
    ensures Replay(cur, [p], r) == Applied(cur, p.body, r)
  {
    assert [p][..0] == [];
  }

  ghost predicate Agrees(a: NodeState, b: NodeState, ab: seq<Packet>, r: string) {
    Replay(Of(Queue(b, r), a.id), ab, r) == Of(Queue(a, r), a.id)
  }

  /** A queued request of `a` is on its way to `b`, or its ack is on its way back, or it is counted. */
  ghost predicate Awaits(a: NodeState, b: NodeState, ab: seq<Packet>, ba: seq<Packet>, r: string) {
    forall p | Own(a, r, p) :: InFlight(ab, RequestMsg(p)) || Acked(a, b, ba, r)
  }

  ghost predicate PairSettles(s: Sys, i: Uuid, j: Uuid)
    requires i in s.nodes && j in s.nodes
  {
    forall r ::
      && Agrees(s.nodes[i], s.nodes[j], Link(s, i, j), r)
      && Awaits(s.nodes[i], s.nodes[j], Link(s, i, j), Link(s, j, i), r)
  }

  lemma PairAt(s: Sys, i: Uuid, j: Uuid, r: string)
    requires i in s.nodes && j in s.nodes && PairSettles(s, i, j)
    ensures Agrees(s.nodes[i], s.nodes[j], Link(s, i, j), r)
    ensures Awaits(s.nodes[i], s.nodes[j], Link(s, i, j), Link(s, j, i), r)
  {
  }

  ghost predicate Members(s: Sys) {
    forall i, r, p | i in s.nodes && p in Queue(s.nodes[i], r) :: p.nodeID in s.nodes
  }

  ghost predicate Settles(s: Sys) {
    && Members(s)
    && forall i, j | i in s.nodes && j in s.nodes && i != j :: PairSettles(s, i, j)
  }

  // ----- one side of a pair changes -----

  /** `a` sends `ext`, which does to its own entries what it will do at the receiver. */
  ghost predicate Tells(a: NodeState, a': NodeState, ext: seq<Packet>, r: string) {
    Of(Queue(a', r), a'.id) == Replay(Of(Queue(a, r), a.id), ext, r)
  }

  lemma SenderTells(a: NodeState, a': NodeState, b: NodeState, ab: seq<Packet>, ext: seq<Packet>, r: string)
    requires Agrees(a, b, ab, r) && a'.id == a.id && Tells(a, a', ext, r)
    ensures Agrees(a', b, ab + ext, r)
  {
    ReplayConcat(Of(Queue(b, r), a.id), ab, ext, r);
  }

  lemma ReceiverTakes(a: NodeState, b: NodeState, b': NodeState, ab: seq<Packet>, r: string)
    requires Agrees(a, b, ab, r) && ab != []
    requires Of(Queue(b', r), a.id) == Applied(Of(Queue(b, r), a.id), ab[0].body, r)
    ensures Agrees(a, b', ab[1..], r)
  {
    assert [ab[0]] + ab[1..] == ab;
    ReplayConcat(Of(Queue(b, r), a.id), [ab[0]], ab[1..], r);
    ReplayOne(Of(Queue(b, r), a.id), ab[0], r);
  }

  /** Messages that are neither requests nor releases. */
  ghost predicate Silent(ext: seq<Packet>) {
    forall k | 0 <= k < |ext| :: ext[k].body.AckMsg? || Neutral(ext[k].body)
  }

  lemma {:induction false} ReplaySilent(cur: seq<LockRequest>, ext: seq<Packet>, r: string)
    requires Silent(ext)
    ensures Replay(cur, ext, r) == cur
  {
    if ext != [] {
      ReplaySilent(cur, ext[..|ext| - 1], r);
    }
  }

  lemma InFlightAppend(link: seq<Packet>, ext: seq<Packet>, body: MessageBody)
    ensures InFlight(link, body) ==> InFlight(link + ext, body)
  {
    if k :| Carries(link, k, body) {
      assert Carries(link + ext, k, body);
    }
  }

  lemma AwaitsAppend(a: NodeState, b: NodeState, ab: seq<Packet>, ext: seq<Packet>, ba: seq<Packet>,
                     back: seq<Packet>, r: string)
    requires Awaits(a, b, ab, ba, r)
    ensures Awaits(a, b, ab + ext, ba + back, r)
  {
    InFlightAppend(ba, back, AckMsg(r));
    forall p | Own(a, r, p) && InFlight(ab, RequestMsg(p))
      ensures InFlight(ab + ext, RequestMsg(p))
    {
      InFlightAppend(ab, ext, RequestMsg(p));
    }
  }

  // ----- what the steps tell -----

  lemma RequestTells(n: NodeState, r: string, now: int, order: seq<Uuid>, pk: Packet, r': string)
    requires NodeOk(n) && pk.body == RequestMsg(NewRequest(n, r, now))
    requires forall i, j | 0 <= i < j < |order| :: order[i] != order[j]
    ensures Tells(n, RequestLock(n, r, now, order).node, [pk], r')
  {
    var n1 := WithRequest(n, r, now);
    var n' := RequestLock(n, r, now, order).node;
    BroadcastEffect(n1, pk.body, order);
    ReplayOne(Of(Queue(n, r'), n.id), pk, r');
    assert NodeOkAt(n, r);
    if r' == r {
      assert Queue(n', r) == Enqueue(Queue(n, r), NewRequest(n, r, now));
      EnqueueOf(Queue(n, r), NewRequest(n, r, now), n.id);
    } else {
      assert Queue(n', r') == Queue(n, r');
    }
  }

  lemma ReleaseOwn(n: NodeState, r: string, order: seq<Uuid>, r': string)
    ensures var n' := ReleaseLock(n, r, order).node;
            n'.id == n.id && n'.peers == n.peers
            && Of(Queue(n', r'), n.id) == Applied(Of(Queue(n, r'), n.id), ReleaseMsg(r), r')
  {
    var n1 := WithoutFirst(n, r, n.id);
    BroadcastHarmless(n1.(pendingAcks := n1.pendingAcks - {r}), ReleaseMsg(r), order);
    RemoveFirstOf(Queue(n, r), n.id, n.id);
    assert Queue(n1, r') == if r' == r then RemoveFirst(Queue(n, r), n.id) else Queue(n, r');
  }

  lemma ReleaseCopy(n: NodeState, r: string, order: seq<Uuid>, j: Uuid)
    requires Enumerates(order, n.peers.Keys) && j in n.peers
    ensures var pks := PacketsTo(ReleaseLock(n, r, order).out, j);
            |pks| == 1 && pks[0].body == ReleaseMsg(r)
  {
    var n1 := WithoutFirst(n, r, n.id);
    BroadcastEffect(n1.(pendingAcks := n1.pendingAcks - {r}), ReleaseMsg(r), order);
    assert j in order;
  }

  lemma ReleaseTells(n: NodeState, r: string, order: seq<Uuid>, j: Uuid, r': string)
    requires Enumerates(order, n.peers.Keys) && j in n.peers
    ensures Tells(n, ReleaseLock(n, r, order).node, PacketsTo(ReleaseLock(n, r, order).out, j), r')
  {
    var pks := PacketsTo(ReleaseLock(n, r, order).out, j);
    ReleaseOwn(n, r, order, r');
    ReleaseCopy(n, r, order, j);
    assert pks == [pks[0]];
    ReplayOne(Of(Queue(n, r'), n.id), pks[0], r');
  }

  lemma {:induction false} ReleaseAllTells(n: NodeState, rs: seq<string>, orders: seq<seq<Uuid>>, j: Uuid, r: string)
    requires |orders| == |rs| && j in n.peers && forall o | o in orders :: Enumerates(o, n.peers.Keys)
    ensures Tells(n, ReleaseAll(n, rs, orders).node, PacketsTo(ReleaseAll(n, rs, orders).out, j), r)
    ensures ReleaseAll(n, rs, orders).node.id == n.id && ReleaseAll(n, rs, orders).node.peers == n.peers
  {
    if rs != [] {
      var k := |rs| - 1;
      ReleaseAllTells(n, rs[..k], orders[..k], j, r);
      var before := ReleaseAll(n, rs[..k], orders[..k]);
      ReleaseTells(before.node, rs[k], orders[k], j, r);
      var last := ReleaseLock(before.node, rs[k], orders[k]);
      PacketsToConcat(before.out, last.out, j);
      ReplayConcat(Of(Queue(n, r), n.id), PacketsTo(before.out, j), PacketsTo(last.out, j), r);
      ReleaseOwn(before.node, rs[k], orders[k], r);
    }
  }

  // ----- steps of a node on its own -----

  /** The node keeps what others have in its queue, and no own request loses acks. */
  ghost predicate LocalAt(n: NodeState, n': NodeState, r: string) {
    && (forall x | x != n.id :: Of(Queue(n', r), x) == Of(Queue(n, r), x))
    && (forall p | Own(n', r, p) :: Own(n, r, p) && Acks(n', r) == Acks(n, r))
  }

  lemma LocalMembers(n: NodeState, n': NodeState, r: string, ids: set<Uuid>)
    requires LocalAt(n, n', r) && n'.id == n.id && n.id in ids && forall p | p in Queue(n, r) :: p.nodeID in ids
    ensures forall p | p in Queue(n', r) :: p.nodeID in ids
  {
    forall p | p in Queue(n', r)
      ensures p.nodeID in ids
    {
      OfMembers(Queue(n', r), p.nodeID);
      OfMembers(Queue(n, r), p.nodeID);
      if p.nodeID != n.id {
        assert p in Of(Queue(n', r), p.nodeID);
      }
    }
  }

  lemma LocalOut(s: Sys, i: Uuid, o: Outcome, y: Uuid)
    requires Shape(s) && i in s.nodes && y in s.nodes && y != i && PairSettles(s, i, y)
    requires o.node.id == i && o.node.peers == s.nodes[i].peers
    requires forall r :: LocalAt(s.nodes[i], o.node, r) && Tells(s.nodes[i], o.node, PacketsTo(o.out, y), r)
    ensures PairSettles(Post(s, i, o), i, y)
  {
    PostLinks(s, i, o);
    var ab, ba, ext := Link(s, i, y), Link(s, y, i), PacketsTo(o.out, y);
    forall r
      ensures Agrees(o.node, s.nodes[y], ab + ext, r)
      ensures Awaits(o.node, s.nodes[y], ab + ext, ba, r)
    {
      assert LocalAt(s.nodes[i], o.node, r) && Tells(s.nodes[i], o.node, ext, r);
      SenderTells(s.nodes[i], o.node, s.nodes[y], ab, ext, r);
      AwaitsAppend(s.nodes[i], s.nodes[y], ab, ext, ba, [], r);
      assert ba + [] == ba;
    }
  }

  lemma LocalIn(s: Sys, i: Uuid, o: Outcome, x: Uuid)
    requires Shape(s) && i in s.nodes && x in s.nodes && x != i && PairSettles(s, x, i)
    requires o.node.id == i && o.node.peers == s.nodes[i].peers
    requires forall r :: LocalAt(s.nodes[i], o.node, r)
    ensures PairSettles(Post(s, i, o), x, i)
  {
    PostLinks(s, i, o);
    var ab, ba, ext := Link(s, x, i), Link(s, i, x), PacketsTo(o.out, x);
    forall r
      ensures Agrees(s.nodes[x], o.node, ab, r)
      ensures Awaits(s.nodes[x], o.node, ab, ba + ext, r)
    {
      assert Agrees(s.nodes[x], s.nodes[i], ab, r) && LocalAt(s.nodes[i], o.node, r);
      AwaitsAppend(s.nodes[x], s.nodes[i], ab, [], ba, ext, r);
      assert ab + [] == ab;
    }
  }

  lemma LocalAllMembers(s: Sys, i: Uuid, o: Outcome)
    requires Members(s) && i in s.nodes && o.node.id == i == s.nodes[i].id
    requires forall r :: LocalAt(s.nodes[i], o.node, r)
    ensures Members(Post(s, i, o))
  {
    var s' := Post(s, i, o);
    forall j, r, p | j in s'.nodes && p in Queue(s'.nodes[j], r)
      ensures p.nodeID in s'.nodes
    {
      if j == i {
        LocalMembers(s.nodes[i], o.node, r, s.nodes.Keys);
      }
    }
  }

  lemma LocalStep(s: Sys, i: Uuid, o: Outcome)
    requires Shape(s) && Settles(s) && i in s.nodes && o.node.id == i && o.node.peers == s.nodes[i].peers
    requires forall r :: LocalAt(s.nodes[i], o.node, r)
    requires forall y, r | y in s.nodes && y != i :: Tells(s.nodes[i], o.node, PacketsTo(o.out, y), r)
    ensures Settles(Post(s, i, o))
  {
    PostLinks(s, i, o);
    LocalAllMembers(s, i, o);
    forall x, y | x in s.nodes && y in s.nodes && x != y
      ensures PairSettles(Post(s, i, o), x, y)
    {
      assert PairSettles(s, x, y);
      if x == i {
        LocalOut(s, i, o, y);
      } else if y == i {
        LocalIn(s, i, o, x);
      }
    }
  }

  lemma SettlesSame(s: Sys, s': Sys)
    requires Settles(s) && s'.nodes == s.nodes && s'.links == s.links
    ensures Settles(s')
  {
    forall x, y | x in s.nodes && y in s.nodes && x != y
      ensures PairSettles(s', x, y)
    {
      assert PairSettles(s, x, y);
      forall r
        ensures Agrees(s.nodes[x], s.nodes[y], Link(s', x, y), r)
        ensures Awaits(s.nodes[x], s.nodes[y], Link(s', x, y), Link(s', y, x), r)
      {
        assert Link(s', x, y) == Link(s, x, y) && Link(s', y, x) == Link(s, y, x);
        assert Agrees(s.nodes[x], s.nodes[y], Link(s, x, y), r);
      }
    }
  }

  /** A step that changes no queue, no count of acks, and sends nothing that does. */
  lemma IdleStep(s: Sys, i: Uuid, o: Outcome)
    requires Shape(s) && Settles(s) && i in s.nodes && o.node.id == i && o.node.peers == s.nodes[i].peers
    requires forall r :: Queue(o.node, r) == Queue(s.nodes[i], r) && Acks(o.node, r) == Acks(s.nodes[i], r)
    requires forall x | x in o.out :: Neutral(x.packet.body)
    ensures Settles(Post(s, i, o))
  {
    forall r
      ensures LocalAt(s.nodes[i], o.node, r)
    {
      assert Queue(o.node, r) == Queue(s.nodes[i], r);
    }
    forall y, r | y in s.nodes && y != i
      ensures Tells(s.nodes[i], o.node, PacketsTo(o.out, y), r)
    {
      PacketsToSent(o.out, y);
      assert forall k | 0 <= k < |PacketsTo(o.out, y)| :: PacketsTo(o.out, y)[k] in PacketsTo(o.out, y);
      ReplaySilent(Of(Queue(s.nodes[i], r), i), PacketsTo(o.out, y), r);
      assert Queue(o.node, r) == Queue(s.nodes[i], r);
    }
    LocalStep(s, i, o);
  }

  /** The queues and acks once the release is out. */
  lemma ReleaseQueue(n: NodeState, r: string, order: seq<Uuid>, r': string)
    ensures var n' := ReleaseLock(n, r, order).node;
            && n'.id == n.id
            && Queue(n', r') == (if r' == r then RemoveFirst(Queue(n, r), n.id) else Queue(n, r'))
            && (r' != r ==> Acks(n', r') == Acks(n, r'))
  {
    var n1 := WithoutFirst(n, r, n.id);
    var n2 := n1.(pendingAcks := n1.pendingAcks - {r});
    BroadcastHarmless(n2, ReleaseMsg(r), order);
    assert Queue(n2, r') == if r' == r then RemoveFirst(Queue(n, r), n.id) else Queue(n, r');
    assert r' != r ==> Acks(n2, r') == Acks(n, r');
  }

  lemma ReleaseLocal(n: NodeState, r: string, order: seq<Uuid>, r': string)
    requires NodeOk(n)
    ensures LocalAt(n, ReleaseLock(n, r, order).node, r')
  {
    ReleaseQueue(n, r, order, r');
    if r' == r {
      forall x | x != n.id
        ensures Of(RemoveFirst(Queue(n, r), n.id), x) == Of(Queue(n, r), x)
      {
        RemoveFirstOf(Queue(n, r), n.id, x);
      }
      assert NodeOkAt(n, r);
      RemoveFirstSub(Queue(n, r), n.id, 0, Never);
    }
  }

  lemma LocalTransitive(n: NodeState, n1: NodeState, n2: NodeState, r: string)
    requires LocalAt(n, n1, r) && LocalAt(n1, n2, r) && n1.id == n.id
    ensures LocalAt(n, n2, r)
  {
  }

  lemma {:induction false} ReleaseAllLocal(n: NodeState, rs: seq<string>, orders: seq<seq<Uuid>>, r: string)
    requires |orders| == |rs| && NodeOk(n)
    ensures LocalAt(n, ReleaseAll(n, rs, orders).node, r)
  {
    if rs != [] {
      var k := |rs| - 1;
      ReleaseAllLocal(n, rs[..k], orders[..k], r);
      var before := ReleaseAll(n, rs[..k], orders[..k]);
      ReleaseAllEffect(n, rs[..k], orders[..k], rs, 0, Never);
      ReleaseLocal(before.node, rs[k], orders[k], r);
      LocalTransitive(n, before.node, ReleaseLock(before.node, rs[k], orders[k]).node, r);
    }
  }

  lemma ReleaseAllSettles(s: Sys, i: Uuid, rs: seq<string>, orders: seq<seq<Uuid>>)
    requires Shape(s) && Settles(s) && i in s.nodes && NodeOk(s.nodes[i])
    requires |orders| == |rs| && forall o | o in orders :: Enumerates(o, s.nodes[i].peers.Keys)
    ensures Settles(Left(Post(s, i, ReleaseAll(s.nodes[i], rs, orders)), i, rs))
  {
    var o := ReleaseAll(s.nodes[i], rs, orders);
    ReleaseAllEffect(s.nodes[i], rs, orders, rs, 0, Never);
    forall r
      ensures LocalAt(s.nodes[i], o.node, r)
    {
      ReleaseAllLocal(s.nodes[i], rs, orders, r);
    }
    forall y, r | y in s.nodes && y != i
      ensures Tells(s.nodes[i], o.node, PacketsTo(o.out, y), r)
    {
      ReleaseAllTells(s.nodes[i], rs, orders, y, r);
    }
    LocalStep(s, i, o);
    SettlesSame(Post(s, i, o), Left(Post(s, i, o), i, rs));
  }

  lemma ReleaseSettles(s: Sys, i: Uuid, r: string, order: seq<Uuid>)
    requires Shape(s) && Settles(s) && i in s.nodes && NodeOk(s.nodes[i]) && Enumerates(order, s.nodes[i].peers.Keys)
    ensures Settles(Left(Post(s, i, ReleaseLock(s.nodes[i], r, order)), i, [r]))
  {
    var o := ReleaseLock(s.nodes[i], r, order);
    forall r'
      ensures LocalAt(s.nodes[i], o.node, r')
    {
      ReleaseLocal(s.nodes[i], r, order, r');
    }
    ReleaseOwn(s.nodes[i], r, order, r);
    forall y, r' | y in s.nodes && y != i
      ensures Tells(s.nodes[i], o.node, PacketsTo(o.out, y), r')
    {
      ReleaseTells(s.nodes[i], r, order, y, r');
    }
    LocalStep(s, i, o);
    SettlesSame(Post(s, i, o), Left(Post(s, i, o), i, [r]));
  }

  // ----- nothing expires -----

  lemma {:induction false} NothingUnexpired(q: seq<LockRequest>, id: Uuid, now: int)
    ensures Unexpired(q, now, Never) == q && ExpiredOf(q, id, now, Never) == 0
  {
    if q != [] {
      NothingUnexpired(q[..|q| - 1], id, now);
    }
  }

  lemma {:induction false} NothingSwept(n: NodeState, rs: seq<string>, now: int)
    ensures var swept := SweepQueues(n, rs, now, Never);
            && swept.toRelease == [] && swept.node.id == n.id && swept.node.peers == n.peers
            && forall r :: Queue(swept.node, r) == Queue(n, r) && Acks(swept.node, r) == Acks(n, r)
  {
    if rs != [] {
      NothingSwept(n, rs[..|rs| - 1], now);
      var before := SweepQueues(n, rs[..|rs| - 1], now, Never);
      NothingUnexpired(Queue(before.node, rs[|rs| - 1]), n.id, now);
    }
  }

  lemma SweepSettles(s: Sys, i: Uuid, rs: seq<string>)
    requires Shape(s) && Settles(s) && i in s.nodes && s.limit == Never
    ensures Settles(Post(s, i, BroadcastReleases(SweepQueues(s.nodes[i], rs, s.now, Never).node, [], [])))
    ensures SweepQueues(s.nodes[i], rs, s.now, Never).toRelease == []
  {
    NothingSwept(s.nodes[i], rs, s.now);
    IdleStep(s, i, Outcome(SweepQueues(s.nodes[i], rs, s.now, Never).node, []));
  }

  lemma EnterSettles(s: Sys, i: Uuid, r: string, order: seq<Uuid>)
    requires Shape(s) && Settles(s) && i in s.nodes && s.limit == Never
    ensures Settles(Post(s, i, EnterCriticalSection(s.nodes[i], r, s.now, s.limit, order)))
  {
    var o := EnterCriticalSection(s.nodes[i], r, s.now, s.limit, order);
    BroadcastHarmless(s.nodes[i], AcquiredMsg(r), order);
    forall r'
      ensures Queue(o.node, r') == Queue(s.nodes[i], r') && Acks(o.node, r') == Acks(s.nodes[i], r')
    {
    }
    IdleStep(s, i, o);
  }

  // ----- a request -----

  /** The queues once the request is out. */
  lemma RequestQueue(n: NodeState, r: string, now: int, order: seq<Uuid>, r': string)
    requires forall i, j | 0 <= i < j < |order| :: order[i] != order[j]
    ensures Queue(RequestLock(n, r, now, order).node, r')
            == if r' == r then Enqueue(Queue(n, r), NewRequest(n, r, now)) else Queue(n, r')
  {
    BroadcastEffect(WithRequest(n, r, now), RequestMsg(NewRequest(n, r, now)), order);
  }

  lemma RequestLocal(n: NodeState, r: string, now: int, order: seq<Uuid>, r': string)
    requires NodeOk(n) && forall i, j | 0 <= i < j < |order| :: order[i] != order[j]
    ensures forall x | x != n.id :: Of(Queue(RequestLock(n, r, now, order).node, r'), x) == Of(Queue(n, r'), x)
  {
    RequestQueue(n, r, now, order, r');
    assert NodeOkAt(n, r);
    forall x | x != n.id
      ensures Of(Enqueue(Queue(n, r), NewRequest(n, r, now)), x) == Of(Queue(n, r), x)
    {
      EnqueueOf(Queue(n, r), NewRequest(n, r, now), x);
    }
  }

  lemma RequestAwaits(a: NodeState, a': NodeState, b: NodeState, ab: seq<Packet>, pk: Packet, ba: seq<Packet>,
                      r: string, req: LockRequest, r': string)
    requires Awaits(a, b, ab, ba, r') && Requested(a, a', r, req) && NoOwn(a, r) && pk.body == RequestMsg(req)
    ensures Awaits(a', b, ab + [pk], ba, r')
  {
    assert Carries(ab + [pk], |ab|, RequestMsg(req));
    forall p | Own(a', r', p)
      ensures InFlight(ab + [pk], RequestMsg(p)) || Acked(a', b, ba, r')
    {
      if r' != r {
        assert Own(a, r', p);
        InFlightAppend(ab, [pk], RequestMsg(p));
      }
    }
  }

  /** The node that asks has its new state, and each of its links got one request. */
  lemma RequestLinks(s: Sys, i: Uuid, r: string, order: seq<Uuid>, y: Uuid)
    requires Shape(s) && i in s.nodes && y in s.nodes && y != i
    requires NodeOk(s.nodes[i]) && NoOwn(s.nodes[i], r) && Enumerates(order, s.nodes[i].peers.Keys)
    ensures var o := RequestLock(s.nodes[i], r, s.now, order); var pks := PacketsTo(o.out, y); var s' := Post(s, i, o);
            && |pks| == 1 && pks[0].body == RequestMsg(NewRequest(s.nodes[i], r, s.now))
            && Link(s', i, y) == Link(s, i, y) + [pks[0]] && Link(s', y, i) == Link(s, y, i)
            && s'.nodes[i] == o.node && s'.nodes[y] == s.nodes[y]
  {
    var o := RequestLock(s.nodes[i], r, s.now, order);
    RequestedByLock(s.nodes[i], r, s.now, order);
    PostLinks(s, i, o);
    assert RequestCopy(PacketsTo(o.out, y), NewRequest(s.nodes[i], r, s.now));
    assert PacketsTo(o.out, y) == [PacketsTo(o.out, y)[0]];
  }

  lemma RequestOut(s: Sys, i: Uuid, r: string, order: seq<Uuid>, y: Uuid)
    requires Shape(s) && i in s.nodes && y in s.nodes && y != i && PairSettles(s, i, y)
    requires NodeOk(s.nodes[i]) && NoOwn(s.nodes[i], r) && Enumerates(order, s.nodes[i].peers.Keys)
    ensures PairSettles(Post(s, i, RequestLock(s.nodes[i], r, s.now, order)), i, y)
  {
    var o := RequestLock(s.nodes[i], r, s.now, order);
    var s' := Post(s, i, o);
    RequestLinks(s, i, r, order, y);
    forall r'
      ensures Agrees(s'.nodes[i], s'.nodes[y], Link(s', i, y), r')
      ensures Awaits(s'.nodes[i], s'.nodes[y], Link(s', i, y), Link(s', y, i), r')
    {
      PairAt(s, i, y, r');
      RequestOutAt(s.nodes[i], s.nodes[y], r, s.now, order, PacketsTo(o.out, y)[0], Link(s, i, y), Link(s, y, i), r');
    }
  }

  lemma RequestOutAt(n: NodeState, y: NodeState, r: string, now: int, order: seq<Uuid>, pk: Packet,
                     ny: seq<Packet>, yn: seq<Packet>, r': string)
    requires NodeOk(n) && NoOwn(n, r) && Enumerates(order, n.peers.Keys) && pk.body == RequestMsg(NewRequest(n, r, now))
    requires Agrees(n, y, ny, r') && Awaits(n, y, ny, yn, r')
    ensures var n' := RequestLock(n, r, now, order).node;
            Agrees(n', y, ny + [pk], r') && Awaits(n', y, ny + [pk], yn, r')
  {
    RequestedByLock(n, r, now, order);
    RequestTells(n, r, now, order, pk, r');
    SenderTells(n, RequestLock(n, r, now, order).node, y, ny, [pk], r');
    RequestAwaits(n, RequestLock(n, r, now, order).node, y, ny, pk, yn, r, NewRequest(n, r, now), r');
  }

  lemma RequestIn(s: Sys, i: Uuid, r: string, order: seq<Uuid>, x: Uuid)
    requires Shape(s) && i in s.nodes && x in s.nodes && x != i && PairSettles(s, x, i)
    requires NodeOk(s.nodes[i]) && NoOwn(s.nodes[i], r) && Enumerates(order, s.nodes[i].peers.Keys)
    ensures PairSettles(Post(s, i, RequestLock(s.nodes[i], r, s.now, order)), x, i)
  {
    var o := RequestLock(s.nodes[i], r, s.now, order);
    var s' := Post(s, i, o);
    RequestLinks(s, i, r, order, x);
    forall r'
      ensures Agrees(s'.nodes[x], s'.nodes[i], Link(s', x, i), r')
      ensures Awaits(s'.nodes[x], s'.nodes[i], Link(s', x, i), Link(s', i, x), r')
    {
      PairAt(s, x, i, r');
      RequestInAt(s.nodes[i], s.nodes[x], r, s.now, order, Link(s, x, i), Link(s, i, x), [PacketsTo(o.out, x)[0]], r');
    }
  }

  lemma RequestInAt(n: NodeState, x: NodeState, r: string, now: int, order: seq<Uuid>, xn: seq<Packet>,
                    nx: seq<Packet>, ext: seq<Packet>, r': string)
    requires NodeOk(n) && x.id != n.id && NoOwn(n, r) && Enumerates(order, n.peers.Keys)
    requires Agrees(x, n, xn, r') && Awaits(x, n, xn, nx, r')
    ensures var n' := RequestLock(n, r, now, order).node;
            Agrees(x, n', xn, r') && Awaits(x, n', xn, nx + ext, r')
  {
    RequestedByLock(n, r, now, order);
    RequestLocal(n, r, now, order, r');
    AwaitsAppend(x, n, xn, [], nx, ext, r');
    assert xn + [] == xn;
  }

  lemma RequestMembers(s: Sys, i: Uuid, r: string, order: seq<Uuid>)
    requires Shape(s) && Members(s) && i in s.nodes && Enumerates(order, s.nodes[i].peers.Keys)
    ensures Members(Post(s, i, RequestLock(s.nodes[i], r, s.now, order)))
  {
    var n, s' := s.nodes[i], Post(s, i, RequestLock(s.nodes[i], r, s.now, order));
    EnqueueEffect(Queue(n, r), NewRequest(n, r, s.now));
    forall j, r', p | j in s'.nodes && p in Queue(s'.nodes[j], r')
      ensures p.nodeID in s'.nodes
    {
      RequestQueue(n, r, s.now, order, r');
      assert j != i ==> p in Queue(s.nodes[j], r');
    }
  }

  lemma RequestUntouched(s: Sys, i: Uuid, r: string, order: seq<Uuid>, x: Uuid, y: Uuid)
    requires Shape(s) && i in s.nodes && x in s.nodes && y in s.nodes && x != i && y != i && PairSettles(s, x, y)
    ensures PairSettles(Post(s, i, RequestLock(s.nodes[i], r, s.now, order)), x, y)
  {
    SamePair(s, Post(s, i, RequestLock(s.nodes[i], r, s.now, order)), x, y);
  }

  lemma RequestSettles(s: Sys, i: Uuid, r: string, order: seq<Uuid>)
    requires Shape(s) && Settles(s) && i in s.nodes
    requires NodeOk(s.nodes[i]) && NoOwn(s.nodes[i], r) && Enumerates(order, s.nodes[i].peers.Keys)
    ensures Settles(Post(s, i, RequestLock(s.nodes[i], r, s.now, order)))
  {
    RequestMembers(s, i, r, order);
    forall x, y | x in s.nodes && y in s.nodes && x != y
      ensures PairSettles(Post(s, i, RequestLock(s.nodes[i], r, s.now, order)), x, y)
    {
      assert PairSettles(s, x, y);
      if x == i {
        RequestOut(s, i, r, order, y);
      } else if y == i {
        RequestIn(s, i, r, order, x);
      } else {
        RequestUntouched(s, i, r, order, x, y);
      }
    }
  }

  // ----- delivery -----

  lemma RequestedQueue(n: NodeState, from: Uuid, req: LockRequest, r: string)
    ensures var n' := HandleLockRequest(n, from, req).node;
            && n'.id == n.id && n'.peers == n.peers
            && Queue(n', r) == if req.resourceID == r then Enqueue(Queue(n, r), req) else Queue(n, r)
  {
  }

  lemma ReleasedQueue(n: NodeState, from: Uuid, rel: string, r: string)
    ensures var n' := HandleLockRelease(n, from, rel);
            && n'.id == n.id && n'.peers == n.peers
            && Queue(n', r) == if rel == r then RemoveFirst(Queue(n, r), from) else Queue(n, r)
  {
  }

  lemma HandleQueue(n: NodeState, pk: Packet, r: string)
    ensures Queue(Handle(n, pk).node, r)
            == if pk.body.RequestMsg? && pk.body.request.resourceID == r then Enqueue(Queue(n, r), pk.body.request)
               else if pk.body == ReleaseMsg(r) then RemoveFirst(Queue(n, r), pk.from)
               else Queue(n, r)
    ensures Handle(n, pk).node.id == n.id && Handle(n, pk).node.peers == n.peers
  {
    var n1 := Received(n, pk.logicalTime);
    assert Queue(n1, r) == Queue(n, r);
    match pk.body
    case RequestMsg(req) => RequestedQueue(n1, pk.from, req, r);
    case ReleaseMsg(rel) => ReleasedQueue(n1, pk.from, rel, r);
    case _ =>
  }

  lemma HandleOf(n: NodeState, pk: Packet, r: string, x: Uuid)
    requires NodeOk(n) && (pk.body.RequestMsg? ==> pk.body.request.nodeID == pk.from)
    ensures Of(Queue(Handle(n, pk).node, r), x)
            == if x == pk.from then Applied(Of(Queue(n, r), x), pk.body, r) else Of(Queue(n, r), x)
  {
    HandleQueue(n, pk, r);
    assert NodeOkAt(n, r);
    if pk.body.RequestMsg? {
      EnqueueOf(Queue(n, r), pk.body.request, x);
    } else if pk.body == ReleaseMsg(r) {
      RemoveFirstOf(Queue(n, r), pk.from, x);
    }
  }

  lemma HandleAcks(n: NodeState, pk: Packet, r: string)
    ensures Acks(Handle(n, pk).node, r) == if pk.body == AckMsg(r) then Acks(n, r) + {pk.from} else Acks(n, r)
  {
  }

  lemma HandleOwn(n: NodeState, pk: Packet, r: string)
    requires NodeOk(n) && (pk.body.RequestMsg? ==> pk.body.request.nodeID == pk.from) && pk.from != n.id
    ensures forall p :: Own(Handle(n, pk).node, r, p) <==> Own(n, r, p)
    ensures Handle(n, pk).node.id == n.id && Handle(n, pk).node.peers == n.peers
  {
    HandleQueue(n, pk, r);
    HandleOf(n, pk, r, n.id);
    SameOf(Queue(n, r), Queue(Handle(n, pk).node, r), n.id);
  }

  lemma SameOf(q: seq<LockRequest>, q': seq<LockRequest>, id: Uuid)
    requires Of(q, id) == Of(q', id)
    ensures forall p: LockRequest | p.nodeID == id :: p in q <==> p in q'
  {
    OfMembers(q, id);
    OfMembers(q', id);
  }

  lemma InFlightPopped(link: seq<Packet>, body: MessageBody)
    requires link != [] && InFlight(link, body) && link[0].body != body
    ensures InFlight(link[1..], body)
  {
    Shifted(link);
  }

  /** The receiver's side after delivery. */
  lemma AwaitsReceiver(a: NodeState, b: NodeState, ab: seq<Packet>, ext: seq<Packet>, ba: seq<Packet>, r: string)
    requires Awaits(a, b, ab, ba, r) && ba != [] && NodeOk(a) && LinkOk(b, ba) && a.id != b.id
    ensures Awaits(Handle(a, ba[0]).node, b, ab + ext, ba[1..], r)
  {
    HandleOwn(a, ba[0], r);
    HandleAcks(a, ba[0], r);
    forall p | Own(a, r, p) && !InFlight(ab + ext, RequestMsg(p))
      ensures Acked(Handle(a, ba[0]).node, b, ba[1..], r)
    {
      InFlightAppend(ab, ext, RequestMsg(p));
      if InFlight(ba, AckMsg(r)) && ba[0].body != AckMsg(r) {
        InFlightPopped(ba, AckMsg(r));
      }
    }
  }

  /** The sender's side: the request that was delivered is acked at once. */
  lemma AwaitsSender(b: NodeState, a: NodeState, ba: seq<Packet>, ab: seq<Packet>, ext: seq<Packet>, r: string)
    requires Awaits(b, a, ba, ab, r) && ba != [] && NodeOk(a) && NodeOk(b) && LinkOk(b, ba) && a.id != b.id
    requires ba[0].body.RequestMsg? ==> InFlight(ab + ext, AckMsg(ba[0].body.request.resourceID))
    ensures Awaits(b, Handle(a, ba[0]).node, ba[1..], ab + ext, r)
  {
    HandleOwn(a, ba[0], r);
    InFlightAppend(ab, ext, AckMsg(r));
    forall p | Own(b, r, p) && !Acked(b, a, ab, r)
      ensures InFlight(ba[1..], RequestMsg(p)) || Acked(b, Handle(a, ba[0]).node, ab + ext, r)
    {
      assert InFlight(ba, RequestMsg(p)) && NodeOkAt(b, r);
      if ba[0].body != RequestMsg(p) {
        InFlightPopped(ba, RequestMsg(p));
      }
    }
  }

  lemma HandleOut(n: NodeState, pk: Packet)
    requires pk.from in n.peers
    ensures Silent(PacketsTo(Handle(n, pk).out, pk.from))
    ensures forall x | x != pk.from :: PacketsTo(Handle(n, pk).out, x) == []
    ensures pk.body.RequestMsg? ==> InFlight(PacketsTo(Handle(n, pk).out, pk.from), AckMsg(pk.body.request.resourceID))
  {
    if pk.body.RequestMsg? {
      var out := Handle(n, pk).out;
      assert out == [Send(pk.from, out[0].packet)] && out[0].packet.body == AckMsg(pk.body.request.resourceID);
      forall x
        ensures PacketsTo(out, x) == if x == pk.from then [out[0].packet] else []
      {
        PacketsToOne(pk.from, out[0].packet, x);
      }
      assert Carries(PacketsTo(out, pk.from), 0, AckMsg(pk.body.request.resourceID));
    }
  }

  lemma InFlightSuffix(link: seq<Packet>, ext: seq<Packet>, body: MessageBody)
    ensures InFlight(ext, body) ==> InFlight(link + ext, body)
  {
    if k :| Carries(ext, k, body) {
      assert Carries(link + ext, |link| + k, body);
    }
  }

  /** Both directions of the link on which the message came. */
  lemma DeliveredSettles(a: NodeState, b: NodeState, ab: seq<Packet>, ba: seq<Packet>, r: string)
    requires NodeOk(a) && NodeOk(b) && LinkOk(b, ba) && a.id != b.id && ba != [] && b.id in a.peers
    requires Agrees(a, b, ab, r) && Agrees(b, a, ba, r) && Awaits(a, b, ab, ba, r) && Awaits(b, a, ba, ab, r)
    ensures var o := Handle(a, ba[0]); var ext := PacketsTo(o.out, b.id);
            && Agrees(o.node, b, ab + ext, r) && Agrees(b, o.node, ba[1..], r)
            && Awaits(o.node, b, ab + ext, ba[1..], r) && Awaits(b, o.node, ba[1..], ab + ext, r)
  {
    var o := Handle(a, ba[0]);
    var ext := PacketsTo(o.out, b.id);
    HandleOut(a, ba[0]);
    HandleOwn(a, ba[0], r);
    HandleOf(a, ba[0], r, a.id);
    HandleOf(a, ba[0], r, b.id);
    ReplaySilent(Of(Queue(a, r), a.id), ext, r);
    SenderTells(a, o.node, b, ab, ext, r);
    ReceiverTakes(b, a, o.node, ba, r);
    AwaitsReceiver(a, b, ab, ext, ba, r);
    if ba[0].body.RequestMsg? {
      InFlightSuffix(ab, ext, AckMsg(ba[0].body.request.resourceID));
    }
    AwaitsSender(b, a, ba, ab, ext, r);
  }

  /** A third node sees nothing of the delivery. */
  lemma BystanderSettles(a: NodeState, c: NodeState, pk: Packet, ac: seq<Packet>, ca: seq<Packet>, r: string)
    requires NodeOk(a) && (pk.body.RequestMsg? ==> pk.body.request.nodeID == pk.from) && pk.from != a.id
        && pk.from != c.id && a.id != c.id
    requires Agrees(a, c, ac, r) && Agrees(c, a, ca, r) && Awaits(a, c, ac, ca, r) && Awaits(c, a, ca, ac, r)
    ensures var a' := Handle(a, pk).node;
            Agrees(a', c, ac, r) && Agrees(c, a', ca, r) && Awaits(a', c, ac, ca, r) && Awaits(c, a', ca, ac, r)
  {
    HandleOwn(a, pk, r);
    HandleOf(a, pk, r, a.id);
    HandleOf(a, pk, r, c.id);
    HandleAcks(a, pk, r);
  }

  /** After a delivery the links of the receiver with the sender and with a third node. */
  lemma DeliveryLinks(s: Sys, j: Uuid, i: Uuid, y: Uuid)
    requires Protocol(s) && i in s.nodes && j in s.nodes && y in s.nodes && i != j && y != i && Link(s, j, i) != []
    ensures var s' := Taken(s, j, i);
            && s'.nodes == s.nodes[i := Handle(s.nodes[i], Link(s, j, i)[0]).node]
            && Link(s', i, y) == Link(s, i, y) + PacketsTo(Handle(s.nodes[i], Link(s, j, i)[0]).out, y)
            && Link(s', y, i) == if y == j then Link(s, j, i)[1..] else Link(s, y, i)
  {
    assert LinkedPair(s, j, i);
    HandleOwn(s.nodes[i], Link(s, j, i)[0], "");
    DeliverLinks(s, j, i, Handle(s.nodes[i], Link(s, j, i)[0]));
  }

  lemma DeliverPair(s: Sys, j: Uuid, i: Uuid)
    requires Protocol(s) && i in s.nodes && j in s.nodes && i != j && Link(s, j, i) != []
    requires PairSettles(s, i, j) && PairSettles(s, j, i)
    ensures PairSettles(Taken(s, j, i), i, j) && PairSettles(Taken(s, j, i), j, i)
  {
    DeliveryLinks(s, j, i, j);
    assert LinkedPair(s, j, i);
    forall r
      ensures var o, s' := Handle(s.nodes[i], Link(s, j, i)[0]), Taken(s, j, i);
              && Agrees(o.node, s.nodes[j], Link(s', i, j), r) && Agrees(s.nodes[j], o.node, Link(s', j, i), r)
              && Awaits(o.node, s.nodes[j], Link(s', i, j), Link(s', j, i), r)
              && Awaits(s.nodes[j], o.node, Link(s', j, i), Link(s', i, j), r)
    {
      PairAt(s, i, j, r);
      PairAt(s, j, i, r);
      DeliveredSettles(s.nodes[i], s.nodes[j], Link(s, i, j), Link(s, j, i), r);
    }
  }

  lemma DeliverBystander(s: Sys, j: Uuid, i: Uuid, y: Uuid)
    requires Protocol(s) && i in s.nodes && j in s.nodes && y in s.nodes && i != j && y != i && y != j
    requires Link(s, j, i) != [] && PairSettles(s, i, y) && PairSettles(s, y, i)
    ensures PairSettles(Taken(s, j, i), i, y) && PairSettles(Taken(s, j, i), y, i)
  {
    var pk := Link(s, j, i)[0];
    assert LinkedPair(s, j, i);
    DeliveryLinks(s, j, i, y);
    HandleOut(s.nodes[i], pk);
    assert Link(Taken(s, j, i), i, y) == Link(s, i, y);
    forall r
      ensures var n', s' := Handle(s.nodes[i], pk).node, Taken(s, j, i);
              && Agrees(n', s.nodes[y], Link(s', i, y), r) && Agrees(s.nodes[y], n', Link(s', y, i), r)
              && Awaits(n', s.nodes[y], Link(s', i, y), Link(s', y, i), r)
              && Awaits(s.nodes[y], n', Link(s', y, i), Link(s', i, y), r)
    {
      PairAt(s, i, y, r);
      PairAt(s, y, i, r);
      BystanderSettles(s.nodes[i], s.nodes[y], pk, Link(s, i, y), Link(s, y, i), r);
    }
  }

  lemma DeliverMembers(s: Sys, j: Uuid, i: Uuid, r: string)
    requires Protocol(s) && Members(s) && i in s.nodes && j in s.nodes && i != j && Link(s, j, i) != []
    ensures forall p | p in Queue(Handle(s.nodes[i], Link(s, j, i)[0]).node, r) :: p.nodeID in s.nodes
  {
    var n, pk := s.nodes[i], Link(s, j, i)[0];
    assert LinkedPair(s, j, i);
    forall p | p in Queue(Handle(n, pk).node, r)
      ensures p.nodeID in s.nodes
    {
      HandleOf(n, pk, r, p.nodeID);
      OfMembers(Queue(Handle(n, pk).node, r), p.nodeID);
      OfMembers(Queue(n, r), p.nodeID);
      if p.nodeID != j {
        assert p in Of(Queue(n, r), p.nodeID);
      }
    }
  }

  lemma DeliverAllMembers(s: Sys, j: Uuid, i: Uuid)
    requires Protocol(s) && Members(s) && i in s.nodes && j in s.nodes && i != j && Link(s, j, i) != []
    ensures Members(Taken(s, j, i))
  {
    var s' := Taken(s, j, i);
    forall x, r, p | x in s'.nodes && p in Queue(s'.nodes[x], r)
      ensures p.nodeID in s'.nodes
    {
      if x == i {
        DeliverMembers(s, j, i, r);
      }
    }
  }

  lemma DeliverUntouched(s: Sys, j: Uuid, i: Uuid, x: Uuid, y: Uuid)
    requires Protocol(s) && i in s.nodes && j in s.nodes && i != j && Link(s, j, i) != []
    requires x in s.nodes && y in s.nodes && x != y && x != i && y != i && PairSettles(s, x, y)
    ensures PairSettles(Taken(s, j, i), x, y)
  {
    assert LinkedPair(s, j, i);
    HandleOwn(s.nodes[i], Link(s, j, i)[0], "");
    DeliverLinks(s, j, i, Handle(s.nodes[i], Link(s, j, i)[0]));
    SamePair(s, Taken(s, j, i), x, y);
  }

  lemma DeliverAnyPair(s: Sys, j: Uuid, i: Uuid, x: Uuid, y: Uuid)
    requires Protocol(s) && Settles(s) && i in s.nodes && j in s.nodes && i != j && Link(s, j, i) != []
    requires x in s.nodes && y in s.nodes && x != y
    ensures PairSettles(Taken(s, j, i), x, y)
  {
    assert PairSettles(s, x, y) && PairSettles(s, y, x);
    if {x, y} == {i, j} {
      DeliverPair(s, j, i);
    } else if x == i {
      DeliverBystander(s, j, i, y);
    } else if y == i {
      DeliverBystander(s, j, i, x);
    } else {
      DeliverUntouched(s, j, i, x, y);
    }
  }

  lemma DeliverSettles(s: Sys, j: Uuid, i: Uuid)
    requires Protocol(s) && Settles(s) && i in s.nodes && j in s.nodes && i != j && Link(s, j, i) != []
    ensures Settles(Taken(s, j, i))
  {
    DeliverAllMembers(s, j, i);
    forall x, y | x in s.nodes && y in s.nodes && x != y
      ensures PairSettles(Taken(s, j, i), x, y)
    {
      DeliverAnyPair(s, j, i, x, y);
    }
  }

  lemma SamePair(s: Sys, s': Sys, x: Uuid, y: Uuid)
    requires x in s.nodes && y in s.nodes && PairSettles(s, x, y)
    requires x in s'.nodes && y in s'.nodes && s'.nodes[x] == s.nodes[x] && s'.nodes[y] == s.nodes[y]
    requires Link(s', x, y) == Link(s, x, y) && Link(s', y, x) == Link(s, y, x)
    ensures PairSettles(s', x, y)
  {
    forall r
      ensures Agrees(s'.nodes[x], s'.nodes[y], Link(s', x, y), r)
      ensures Awaits(s'.nodes[x], s'.nodes[y], Link(s', x, y), Link(s', y, x), r)
    {
      assert Agrees(s.nodes[x], s.nodes[y], Link(s, x, y), r);
    }
  }

  lemma ClockSettles(s: Sys, i: Uuid, time: int)
    requires Shape(s) && Settles(s) && i in s.nodes
    ensures Settles(WithClock(s, i, time))
  {
    var o := Outcome(s.nodes[i].(logicalTime := time), []);
    assert forall r :: Queue(o.node, r) == Queue(s.nodes[i], r) && Acks(o.node, r) == Acks(s.nodes[i], r);
    IdleStep(s, i, o);
    assert forall k | k in s.links :: Post(s, i, o).links[k] == s.links[k];
    assert Post(s, i, o) == WithClock(s, i, time);
  }

  lemma AbortSettles(s: Sys, e: Event)
    requires Inv(s) && Settles(s) && Enabled(s, e) && e.DeliverAbort?
    ensures Settles(Next(s, e))
  {
    TakenInv(s, e.from, e.i);
    DeliverSettles(s, e.from, e.i);
    ReleaseAllSettles(Taken(s, e.from, e.i), e.i, e.rs, e.orders);
  }

  // ----- every step -----

  lemma CallRequestSettles(s: Sys, e: Event)
    requires Inv(s) && Settles(s) && Enabled(s, e) && Disciplined(s, e) && e.CallRequestLock?
    ensures Settles(Next(s, e))
  {
    RequestSettles(s, e.i, e.r, e.order);
  }

  lemma CallReleaseSettles(s: Sys, e: Event)
    requires Inv(s) && Settles(s) && Enabled(s, e) && e.CallReleaseLock?
    ensures Settles(Next(s, e))
  {
    ReleaseSettles(s, e.i, e.r, e.order);
  }

  lemma CallEnterSettles(s: Sys, e: Event)
    requires Inv(s) && Settles(s) && s.limit == Never && Enabled(s, e) && e.CallEnter?
    ensures Settles(Next(s, e))
  {
    EnterSettles(s, e.i, e.r, e.order);
    SettlesSame(Post(s, e.i, EnterCriticalSection(s.nodes[e.i], e.r, s.now, s.limit, e.order)), Next(s, e));
  }

  lemma SweepEventSettles(s: Sys, e: Event)
    requires Inv(s) && Settles(s) && s.limit == Never && Enabled(s, e) && e.CheckTimeouts?
    ensures Settles(Next(s, e))
  {
    SweepSettles(s, e.i, e.rs);
    assert e.orders == [];
  }

  lemma AbortSelfSettles(s: Sys, e: Event)
    requires Inv(s) && Settles(s) && Enabled(s, e) && e.AbortSelf?
    ensures Settles(Next(s, e))
  {
    ReleaseAllSettles(s, e.i, e.rs, e.orders);
  }

  lemma TellSettles(s: Sys, e: Event)
    requires Inv(s) && Settles(s) && Enabled(s, e) && e.Tell?
    ensures Settles(Next(s, e))
  {
    var n := s.nodes[e.i];
    var o := SendOne(n, e.to, e.body);
    assert forall r :: Queue(o.node, r) == Queue(n, r) && Acks(o.node, r) == Acks(n, r);
    IdleStep(s, e.i, o);
  }

  lemma TrafficSettles(s: Sys, e: Event)
    requires Shape(s) && Settles(s) && Enabled(s, e) && (e.OtherSend? || e.OtherReceive?)
    ensures Settles(Next(s, e))
  {
    ClockSettles(s, e.i, Next(s, e).nodes[e.i].logicalTime);
  }

  lemma LimitStays(s: Sys, e: Event)
    requires Enabled(s, e)
    ensures Next(s, e).limit == s.limit
  {
  }

  lemma StepSettles(s: Sys, e: Event)
    requires Inv(s) && Settles(s) && s.limit == Never && Enabled(s, e) && Disciplined(s, e)
    ensures Settles(Next(s, e))
  {
    if e.CallRequestLock? {
      CallRequestSettles(s, e);
    } else if e.CallReleaseLock? {
      CallReleaseSettles(s, e);
    } else if e.CallEnter? {
      CallEnterSettles(s, e);
    } else if e.CheckTimeouts? {
      SweepEventSettles(s, e);
    } else if e.Deliver? {
      DeliverSettles(s, e.from, e.i);
    } else if e.DeliverAbort? {
      AbortSettles(s, e);
    } else if e.AbortSelf? {
      AbortSelfSettles(s, e);
    } else if e.Tell? {
      TellSettles(s, e);
    } else if e.TimePasses? {
      SettlesSame(s, Next(s, e));
    } else {
      TrafficSettles(s, e);
    }
  }

  lemma InitSettles(s: Sys)
    requires Init(s)
    ensures Settles(s)
  {
    assert forall i, r | i in s.nodes :: Queue(s.nodes[i], r) == [];
  }

  lemma {:induction false} RunSettles(s: Sys, es: seq<Event>, t: Sys)
    requires Inv(s) && Settles(s) && s.limit == Never && Run(s, es, t, true)
    ensures Inv(t) && Settles(t)
    decreases |es|
  {
    if es != [] {
      StepSettles(s, es[0]);
      LimitStays(s, es[0]);
      StepInv(s, es[0]);
      RunSettles(Next(s, es[0]), es[1..], t);
    }
  }

  // ----- equal queues -----

  lemma {:induction false} SameEntriesSameQueue(q1: seq<LockRequest>, q2: seq<LockRequest>)
    requires InOrder(q1) && InOrder(q2) && forall id :: Of(q1, id) == Of(q2, id)
    ensures q1 == q2
  {
    if q1 == [] {
      if q2 != [] {
        HeadOf(q2);
      }
    } else {
      OfMembers(q1, q1[0].nodeID);
      OfMembers(q2, q1[0].nodeID);
      assert q1[0] in Of(q1, q1[0].nodeID) && q1[0] in q2;
      OfMembers(q1, q2[0].nodeID);
      OfMembers(q2, q2[0].nodeID);
      assert q2[0] in Of(q2, q2[0].nodeID) && q2[0] in q1;
      HeadFirst(q1, q2[0]);
      HeadFirst(q2, q1[0]);
      CompareLockRequestsTotal(q1[0], q2[0]);
      HeadOf(q1);
      HeadOf(q2);
      assert q1[0] == q2[0];
      forall id
        ensures Of(q1[1..], id) == Of(q2[1..], id)
      {
        TailOf(q1, id);
        TailOf(q2, id);
        var head := if q1[0].nodeID == id then [q1[0]] else [];
        assert Of(q1, id)[|head|..] == Of(q1[1..], id) && Of(q2, id)[|head|..] == Of(q2[1..], id);
      }
      SortedTail(q1, CompareLockRequests);
      SortedTail(q2, CompareLockRequests);
      SameEntriesSameQueue(q1[1..], q2[1..]);
    }
  }

  lemma HeadOf(q: seq<LockRequest>)
    requires q != []
    ensures Of(q, q[0].nodeID) != [] && Of(q, q[0].nodeID)[0] == q[0]
  {
    TailOf(q, q[0].nodeID);
  }

  // ----- the theorem -----

  ghost predicate LinksEmpty(s: Sys) {
    forall i, j | i in s.nodes && j in s.nodes && i != j :: Link(s, i, j) == []
  }

  lemma StrangersAbsent(s: Sys, i: Uuid, id: Uuid, r: string)
    requires Members(s) && i in s.nodes && id !in s.nodes
    ensures Of(Queue(s.nodes[i], r), id) == []
  {
    NoneOfIsEmpty(Queue(s.nodes[i], r), id);
  }

  lemma SettledOf(s: Sys, i: Uuid, id: Uuid, r: string)
    requires Settles(s) && LinksEmpty(s) && Shape(s) && i in s.nodes
    ensures id in s.nodes ==> Of(Queue(s.nodes[i], r), id) == Of(Queue(s.nodes[id], r), id)
    ensures id !in s.nodes ==> Of(Queue(s.nodes[i], r), id) == []
  {
    if id !in s.nodes {
      StrangersAbsent(s, i, id, r);
    } else if i != id {
      PairAt(s, id, i, r);
      assert Link(s, id, i) == [];
    }
  }

  lemma SettledQueues(s: Sys, i: Uuid, j: Uuid, r: string)
    requires Inv(s) && Settles(s) && LinksEmpty(s) && i in s.nodes && j in s.nodes
    ensures Queue(s.nodes[i], r) == Queue(s.nodes[j], r)
  {
    assert NodeOkAt(s.nodes[i], r) && NodeOkAt(s.nodes[j], r);
    forall id
      ensures Of(Queue(s.nodes[i], r), id) == Of(Queue(s.nodes[j], r), id)
    {
      SettledOf(s, i, id, r);
      SettledOf(s, j, id, r);
    }
    SameEntriesSameQueue(Queue(s.nodes[i], r), Queue(s.nodes[j], r));
  }

  lemma SettledHead(s: Sys, i: Uuid, r: string)
    requires Inv(s) && Settles(s) && LinksEmpty(s) && i in s.nodes
    ensures HeadWithAllAcks(s.nodes[i], r) <==> Queue(s.nodes[i], r) != [] && Queue(s.nodes[i], r)[0].nodeID == i
  {
    var n := s.nodes[i];
    if Queue(n, r) != [] && Queue(n, r)[0].nodeID == i {
      forall j | j in n.peers
        ensures j in Acks(n, r)
      {
        assert PairSettles(s, i, j) && Awaits(n, s.nodes[j], Link(s, i, j), Link(s, j, i), r);
        assert Own(n, r, Queue(n, r)[0]);
      }
      assert NodeOkAt(n, r);
      assert Acks(n, r) == n.peers.Keys;
    }
  }

  /** Over every run without expiry: what node `j` has of node `i` is what `i` has of its own, once
      the messages still on the link from `i` to `j` are applied. */
  lemma QueuesDifferByMessagesInFlight(s: Sys, es: seq<Event>, t: Sys, i: Uuid, j: Uuid, r: string)
    requires Init(s) && s.limit == Never && Run(s, es, t, true) && i in t.nodes && j in t.nodes && i != j
    ensures Replay(Of(Queue(t.nodes[j], r), i), Link(t, i, j), r) == Of(Queue(t.nodes[i], r), i)
  {
    InitInv(s);
    InitSettles(s);
    RunSettles(s, es, t);
    assert PairSettles(t, i, j);
    PairAt(t, i, j, r);
  }

  /** When no message is in flight all queues are the same sorted sequence, and exactly the owner of
      its head may enter. */
  lemma QuietClusterAgrees(s: Sys, es: seq<Event>, t: Sys, r: string)
    requires Init(s) && s.limit == Never && Run(s, es, t, true) && LinksEmpty(t)
    ensures forall i, j | i in t.nodes && j in t.nodes :: Queue(t.nodes[i], r) == Queue(t.nodes[j], r)
    ensures forall i | i in t.nodes :: Sorting.Sorted(Queue(t.nodes[i], r), CompareLockRequests)
    ensures forall i | i in t.nodes ::
              HeadWithAllAcks(t.nodes[i], r) <==> Queue(t.nodes[i], r) != [] && Queue(t.nodes[i], r)[0].nodeID == i
  {
    InitInv(s);
    InitSettles(s);
    RunSettles(s, es, t);
    forall i, j | i in t.nodes && j in t.nodes
      ensures Queue(t.nodes[i], r) == Queue(t.nodes[j], r)
    {
      SettledQueues(t, i, j, r);
    }
    forall i | i in t.nodes
      ensures Sorting.Sorted(Queue(t.nodes[i], r), CompareLockRequests)
      ensures HeadWithAllAcks(t.nodes[i], r) <==> Queue(t.nodes[i], r) != [] && Queue(t.nodes[i], r)[0].nodeID == i
    {
      SettledHead(t, i, r);
      assert NodeOkAt(t.nodes[i], r);
    }
  }
}
