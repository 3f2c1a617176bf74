/** What the functions of LockState do to a node, in the terms of LockPairs. */
module LockEffects {
  import opened Uuids
  import opened Lamport
  import opened LockState
  import opened LockSystem
  import opened LockPairs
  import Sorting

  // ----- sending -----

  lemma PacketsToConcat(o1: seq<Send>, o2: seq<Send>, j: Uuid)
    ensures PacketsTo(o1 + o2, j) == PacketsTo(o1, j) + PacketsTo(o2, j)
  {
    if o2 == [] {
      assert o1 + o2 == o1;
    } else {
      assert (o1 + o2)[..|o1 + o2| - 1] == o1 + o2[..|o2| - 1];
      PacketsToConcat(o1, o2[..|o2| - 1], j);
    }
  }

  lemma PacketsToOne(to: Uuid, p: Packet, j: Uuid)
    ensures PacketsTo([Send(to, p)], j) == if to == j then [p] else []
  {
    assert [Send(to, p)][..0] == [];
  }

  /** `pks` is what one peer gets of a broadcast. */
  ghost predicate OneCopy(pks: seq<Packet>, from: Uuid, body: MessageBody, after: int) {
    |pks| == 1 && pks[0].from == from && pks[0].body == body && pks[0].logicalTime > after
  }

  /** What one node gets of a broadcast. */
  lemma {:induction false} BroadcastTo(n: NodeState, body: MessageBody, order: seq<Uuid>, j: Uuid)
    requires forall i, k | 0 <= i < k < |order| :: order[i] != order[k]
    ensures var pks := PacketsTo(Broadcast(n, body, order).out, j);
            if j in order then OneCopy(pks, n.id, body, n.logicalTime) else pks == []
  {
    if order != [] {
      var front, last := order[..|order| - 1], order[|order| - 1];
      var before := Broadcast(n, body, front);
      var sent := SendOne(before.node, last, body);
      BroadcastTo(n, body, front, j);
      BroadcastHarmless(n, body, front);
      PacketsToConcat(before.out, sent.out, j);
      PacketsToOne(last, sent.out[0].packet, j);
      assert j in order <==> j in front || j == last;
      assert last !in front;
    }
  }

  lemma BroadcastEffect(n: NodeState, body: MessageBody, order: seq<Uuid>)
    requires forall i, j | 0 <= i < j < |order| :: order[i] != order[j]
    ensures Broadcast(n, body, order).node == n.(logicalTime := n.logicalTime + |order|)
    ensures forall j | j !in order :: PacketsTo(Broadcast(n, body, order).out, j) == []
    ensures forall j | j in order :: OneCopy(PacketsTo(Broadcast(n, body, order).out, j), n.id, body, n.logicalTime)
  {
    BroadcastHarmless(n, body, order);
    forall j
      ensures var pks := PacketsTo(Broadcast(n, body, order).out, j);
              if j in order then OneCopy(pks, n.id, body, n.logicalTime) else pks == []
    {
      BroadcastTo(n, body, order, j);
    }
  }

  lemma {:induction false} BroadcastHarmless(n: NodeState, body: MessageBody, order: seq<Uuid>)
    ensures Broadcast(n, body, order).node == n.(logicalTime := n.logicalTime + |order|)
    ensures forall s | s in Broadcast(n, body, order).out :: s.packet.from == n.id && s.packet.body == body
  {
    if order != [] {
      BroadcastHarmless(n, body, order[..|order| - 1]);
    }
  }

  /** What is addressed to `j` is among what was sent. */
  lemma {:induction false} PacketsToSent(out: seq<Send>, j: Uuid)
    ensures forall p | p in PacketsTo(out, j) :: exists s :: s in out && s.packet == p
  {
    if out != [] {
      PacketsToSent(out[..|out| - 1], j);
      assert forall s | s in out[..|out| - 1] :: s in out;
      assert out[|out| - 1] in out;
    }
  }

  // ----- queues -----

  lemma {:induction false} OfConcat(a: seq<LockRequest>, b: seq<LockRequest>, id: Uuid)
    ensures Of(a + b, id) == Of(a, id) + Of(b, id)
  {
    if b == [] {
      assert a + b == a;
    } else {
      assert (a + b)[..|a + b| - 1] == a + b[..|b| - 1];
      OfConcat(a, b[..|b| - 1], id);
    }
  }

  lemma {:induction false} OfMembers(q: seq<LockRequest>, id: Uuid)
    ensures forall p :: p in Of(q, id) <==> p in q && p.nodeID == id
  {
    if q != [] {
      OfMembers(q[..|q| - 1], id);
      assert q == q[..|q| - 1] + [q[|q| - 1]];
    }
  }

  lemma NoneOfIsEmpty(q: seq<LockRequest>, id: Uuid)
    ensures NoneOf(q, id) <==> Of(q, id) == []
  {
    OfMembers(q, id);
    if Of(q, id) != [] {
      assert Of(q, id)[0] in Of(q, id);
    }
  }

  lemma OneOfUnique(q: seq<LockRequest>, id: Uuid, p: LockRequest, p': LockRequest)
    requires OneOf(q, id) && p in q && p' in q && p.nodeID == id && p'.nodeID == id
    ensures p == p'
  {
    OfMembers(q, id);
    assert p in Of(q, id) && p' in Of(q, id);
  }

  lemma OfOne(p: LockRequest, id: Uuid)
    ensures Of([p], id) == if p.nodeID == id then [p] else []
  {
    assert [p][..0] == [];
  }

  lemma SortedTail<T(!new)>(q: seq<T>, less: (T, T) -> bool)
    requires q != []
    ensures Sorting.Sorted(q, less) <==> Sorting.Sorted(q[1..], less) && forall p | p in q[1..] :: !less(p, q[0])
  {
    var t := q[1..];
    if Sorting.Sorted(q, less) {
      assert forall i | 0 <= i < |t| :: t[i] == q[i + 1];
    }
    if Sorting.Sorted(t, less) && forall p | p in t :: !less(p, q[0]) {
      forall i, j | 0 <= i < j < |q|
        ensures !less(q[j], q[i])
      {
        assert q[j] == t[j - 1];
        if i > 0 {
          assert q[i] == t[i - 1];
        }
      }
    }
  }

  /** Insertion among the entries of the node, and nothing to others. */
  function OfInserted(q: seq<LockRequest>, req: LockRequest, id: Uuid, less: (LockRequest, LockRequest) -> bool)
    : seq<LockRequest>
  {
    if req.nodeID == id then Sorting.Insert(Of(q, id), req, less) else Of(q, id)
  }

  lemma OfInsertAtEnd(q: seq<LockRequest>, req: LockRequest, id: Uuid, less: (LockRequest, LockRequest) -> bool)
    requires q == [] || !less(req, q[|q| - 1])
    requires Of(q, id) == [] || !less(req, Of(q, id)[|Of(q, id)| - 1])
    ensures Of(Sorting.Insert(q, req, less), id) == OfInserted(q, req, id, less)
  {
    OfConcat(q, [req], id);
    OfOne(req, id);
  }

  lemma OfInsertInner(front: seq<LockRequest>, last: LockRequest, req: LockRequest, id: Uuid,
                      less: (LockRequest, LockRequest) -> bool)
    requires less(req, last)
    requires Of(Sorting.Insert(front, req, less), id) == OfInserted(front, req, id, less)
    ensures Of(Sorting.Insert(front + [last], req, less), id) == OfInserted(front + [last], req, id, less)
  {
    var grown, own, one := Sorting.Insert(front, req, less), Of(front, id), Of([last], id);
    Sorting.InsertBeforeLast(front, last, req, less);
    OfConcat(grown, [last], id);
    OfConcat(front, [last], id);
    OfOne(last, id);
    assert Of(Sorting.Insert(front + [last], req, less), id) == OfInserted(front, req, id, less) + one;
    if last.nodeID == id {
      Sorting.InsertBeforeLast(own, last, req, less);
    } else {
      assert own + one == own && OfInserted(front, req, id, less) + one == OfInserted(front, req, id, less);
    }
  }

  lemma {:induction false} OfInsert(q: seq<LockRequest>, req: LockRequest, id: Uuid,
                                    less: (LockRequest, LockRequest) -> bool)
    requires Sorting.Order(less) && Sorting.Sorted(q, less)
    ensures Of(Sorting.Insert(q, req, less), id) == OfInserted(q, req, id, less)
  {
    if q == [] || !less(req, q[|q| - 1]) {
      if Of(q, id) != [] {
        OfLastNotAfter(q, req, id, less);
      }
      OfInsertAtEnd(q, req, id, less);
    } else {
      OfInsert(q[..|q| - 1], req, id, less);
      OfInsertInner(q[..|q| - 1], q[|q| - 1], req, id, less);
      assert q[..|q| - 1] + [q[|q| - 1]] == q;
    }
  }

  lemma OfLastNotAfter(q: seq<LockRequest>, req: LockRequest, id: Uuid, less: (LockRequest, LockRequest) -> bool)
    requires Sorting.Order(less) && Sorting.Sorted(q, less) && q != [] && !less(req, q[|q| - 1]) && Of(q, id) != []
    ensures !less(req, Of(q, id)[|Of(q, id)| - 1])
  {
    var p := Of(q, id)[|Of(q, id)| - 1];
    OfMembers(q, id);
    assert p in Of(q, id);
    var k :| 0 <= k < |q| && q[k] == p;
    assert k < |q| - 1 ==> !less(q[|q| - 1], q[k]);
  }

  lemma EnqueueEffect(q: seq<LockRequest>, req: LockRequest)
    ensures forall p :: p in Enqueue(q, req) <==> p in q || p == req
    ensures InOrder(Enqueue(q, req))
  {
    CompareLockRequestsOrder();
    Sorting.SliceStableSorted(q + [req], CompareLockRequests);
    Sorting.SliceStableMembers(q + [req], CompareLockRequests);
  }

  lemma EnqueueOf(q: seq<LockRequest>, req: LockRequest, id: Uuid)
    requires InOrder(q)
    ensures Of(Enqueue(q, req), id) == OfInserted(q, req, id, CompareLockRequests)
  {
    CompareLockRequestsOrder();
    Sorting.AppendAndSort(q, req, CompareLockRequests);
    OfInsert(q, req, id, CompareLockRequests);
  }

  lemma EnqueueOneOf(q: seq<LockRequest>, req: LockRequest, id: Uuid)
    requires InOrder(q) && OneOf(q, id)
    requires req.nodeID == id ==> NoneOf(q, id)
    ensures OneOf(Enqueue(q, req), id)
  {
    EnqueueOf(q, req, id);
    NoneOfIsEmpty(q, id);
    if req.nodeID == id {
      assert Of(q, id) == [] && Sorting.Insert([], req, CompareLockRequests) == [req];
    }
  }

  /** Cutting one element out of a sorted queue. */
  lemma CutEffect<T(!new)>(q: seq<T>, i: nat, less: (T, T) -> bool)
    requires i < |q|
    ensures Sorting.Sorted(q, less) ==> Sorting.Sorted(q[..i] + q[i + 1..], less)
    ensures forall p | p in q[..i] + q[i + 1..] :: p in q
    ensures forall p :: p in q ==> p in q[..i] + q[i + 1..] || p == q[i]
  {
    assert q == q[..i] + [q[i]] + q[i + 1..];
  }

  lemma FirstOf(q: seq<LockRequest>, id: Uuid) returns (i: nat)
    requires !NoneOf(q, id)
    ensures i < |q| && q[i].nodeID == id && forall m | 0 <= m < i :: q[m].nodeID != id
  {
    i := 0;
    var k: nat :| k < |q| && q[k].nodeID == id;
    while q[i].nodeID != id
      invariant i <= k < |q|
      invariant forall m | 0 <= m < i :: q[m].nodeID != id
      decreases k - i
    {
      i := i + 1;
    }
  }

  /** RemoveFirst takes the first entry of the node and leaves the others alone. */
  lemma {:induction false} RemoveFirstOf(q: seq<LockRequest>, id: Uuid, x: Uuid)
    ensures Of(RemoveFirst(q, id), x) == if x != id || Of(q, id) == [] then Of(q, x) else Of(q, id)[1..]
  {
    if q != [] {
      var head, tail := q[0], q[1..];
      assert q == [head] + tail;
      OfConcat([head], tail, x);
      OfConcat([head], tail, id);
      OfOne(head, x);
      OfOne(head, id);
      if head.nodeID != id {
        RemoveFirstOf(tail, id, x);
        OfConcat([head], RemoveFirst(tail, id), x);
      }
    }
  }

  lemma RemoveFirstEffect(q: seq<LockRequest>, id: Uuid)
    requires InOrder(q)
    ensures InOrder(RemoveFirst(q, id))
    ensures forall p | p in RemoveFirst(q, id) :: p in q
    ensures forall p | p in q && p.nodeID != id :: p in RemoveFirst(q, id)
  {
    if NoneOf(q, id) {
      RemoveFirstNone(q, id);
    } else {
      var i := FirstOf(q, id);
      RemoveFirstAt(q, i, id);
      CutEffect(q, i, CompareLockRequests);
    }
  }

  lemma {:induction false} UnexpiredMembers(q: seq<LockRequest>, now: int, limit: Limit)
    ensures forall p :: p in Unexpired(q, now, limit) <==> p in q && !Expired(p, now, limit)
  {
    if q != [] {
      assert q == q[..|q| - 1] + [q[|q| - 1]];
      UnexpiredMembers(q[..|q| - 1], now, limit);
    }
  }

  lemma {:induction false} UnexpiredSorted(q: seq<LockRequest>, now: int, limit: Limit,
                                           less: (LockRequest, LockRequest) -> bool)
    requires Sorting.Sorted(q, less)
    ensures Sorting.Sorted(Unexpired(q, now, limit), less)
  {
    if q != [] {
      var front, last := q[..|q| - 1], q[|q| - 1];
      UnexpiredSorted(front, now, limit, less);
      UnexpiredMembers(front, now, limit);
      var rest := Unexpired(front, now, limit);
      assert forall p | p in front :: !less(last, p);
      Sorting.AppendSorted(rest, last, less);
    }
  }

  lemma {:induction false} UnexpiredOf(q: seq<LockRequest>, id: Uuid, now: int, limit: Limit)
    ensures |Of(Unexpired(q, now, limit), id)| + ExpiredOf(q, id, now, limit) == |Of(q, id)|
  {
    if q != [] {
      var front, last := q[..|q| - 1], q[|q| - 1];
      UnexpiredOf(front, id, now, limit);
      OfConcat(Unexpired(front, now, limit), [last], id);
      OfOne(last, id);
    }
  }

  // ----- steps that lose entries -----

  /** `q'` is sorted, part of `q`, and lacks only expired entries and, on a release, those of `id`. */
  ghost predicate SubQueue(q: seq<LockRequest>, q': seq<LockRequest>, id: Uuid, released: bool, now: int, limit: Limit) {
    && InOrder(q')
    && |Of(q', id)| <= |Of(q, id)|
    && (forall p | p in q' :: p in q)
    && (forall p | p in q && p !in q' :: (released && p.nodeID == id) || Expired(p, now, limit))
  }

  lemma ShrinksTransitive(n: NodeState, n1: NodeState, n2: NodeState, rs: seq<string>, now: int, limit: Limit)
    requires Shrinks(n, n1, rs, now, limit) && Shrinks(n1, n2, rs, now, limit)
    ensures Shrinks(n, n2, rs, now, limit)
  {
    forall r
      ensures ShrinksAt(n, n2, r, r in rs, now, limit)
    {
      assert ShrinksAt(n, n1, r, r in rs, now, limit) && ShrinksAt(n1, n2, r, r in rs, now, limit);
    }
  }

  lemma ClockShrinks(n: NodeState, time: int, rs: seq<string>, now: int, limit: Limit)
    requires NodeOk(n) && time >= n.logicalTime
    ensures Shrinks(n, n.(logicalTime := time), rs, now, limit) && NodeOk(n.(logicalTime := time))
  {
    var n' := n.(logicalTime := time);
    forall r
      ensures ShrinksAt(n, n', r, r in rs, now, limit) && NodeOkAt(n', r)
    {
      assert NodeOkAt(n, r) && Queue(n', r) == Queue(n, r) && Acks(n', r) == Acks(n, r);
    }
  }

  /** Replacing one queue by a sub-queue. */
  lemma SubQueueShrinks(n: NodeState, n': NodeState, r: string, rs: seq<string>, now: int, limit: Limit)
    requires NodeOk(n)
    requires n'.id == n.id && n'.peers == n.peers && n'.logicalTime == n.logicalTime
    requires forall r' | r' != r :: Queue(n', r') == Queue(n, r') && Acks(n', r') == Acks(n, r')
    requires SubQueue(Queue(n, r), Queue(n', r), n.id, r in rs, now, limit)
    requires Acks(n', r) == Acks(n, r) || (Acks(n', r) == {} && NoneOf(Queue(n', r), n.id))
    ensures Shrinks(n, n', rs, now, limit) && NodeOk(n')
  {
    forall r'
      ensures ShrinksAt(n, n', r', r' in rs, now, limit) && NodeOkAt(n', r')
    {
      assert NodeOkAt(n, r');
    }
  }

  lemma TailOf(q: seq<LockRequest>, id: Uuid)
    requires q != []
    ensures Of(q, id) == (if q[0].nodeID == id then [q[0]] else []) + Of(q[1..], id)
  {
    assert [q[0]] + q[1..] == q;
    OfConcat([q[0]], q[1..], id);
    OfOne(q[0], id);
  }

  lemma TailSub(q: seq<LockRequest>, id: Uuid, now: int, limit: Limit)
    requires q != [] && InOrder(q) && Expired(q[0], now, limit)
    ensures SubQueue(q, q[1..], id, false, now, limit)
    ensures q[0].nodeID == id && OneOf(q, id) ==> NoneOf(q[1..], id)
  {
    TailOf(q, id);
    NoneOfIsEmpty(q[1..], id);
    SortedTail(q, CompareLockRequests);
    assert forall p | p in q && p !in q[1..] :: p == q[0];
  }

  lemma RemoveFirstSub(q: seq<LockRequest>, id: Uuid, now: int, limit: Limit)
    requires InOrder(q) && OneOf(q, id)
    ensures SubQueue(q, RemoveFirst(q, id), id, true, now, limit) && NoneOf(RemoveFirst(q, id), id)
  {
    RemoveFirstEffect(q, id);
    RemoveFirstOf(q, id, id);
    NoneOfIsEmpty(RemoveFirst(q, id), id);
  }

  lemma UnexpiredSub(q: seq<LockRequest>, id: Uuid, now: int, limit: Limit)
    requires InOrder(q) && OneOf(q, id)
    ensures SubQueue(q, Unexpired(q, now, limit), id, false, now, limit)
    ensures ExpiredOf(q, id, now, limit) > 0 ==> NoneOf(Unexpired(q, now, limit), id)
  {
    UnexpiredSorted(q, now, limit, CompareLockRequests);
    UnexpiredMembers(q, now, limit);
    UnexpiredOf(q, id, now, limit);
    NoneOfIsEmpty(Unexpired(q, now, limit), id);
  }

  lemma {:induction false} DropShrinks(n: NodeState, r: string, now: int, limit: Limit)
    requires NodeOk(n)
    ensures var n' := DropExpiredHeads(n, r, now, limit); Shrinks(n, n', [], now, limit) && NodeOk(n')
    ensures var q := Queue(DropExpiredHeads(n, r, now, limit), r); q == [] || !Expired(q[0], now, limit)
    decreases |Queue(n, r)|
  {
    var q := Queue(n, r);
    if q == [] || !Expired(q[0], now, limit) {
      ClockShrinks(n, n.logicalTime, [], now, limit);
    } else {
      assert NodeOkAt(n, r);
      var acks := if q[0].nodeID == n.id then n.pendingAcks - {r} else n.pendingAcks;
      var n1 := n.(lockQueue := n.lockQueue[r := q[1..]], pendingAcks := acks);
      TailSub(q, n.id, now, limit);
      assert Queue(n1, r) == q[1..];
      SubQueueShrinks(n, n1, r, [], now, limit);
      DropShrinks(n1, r, now, limit);
      ShrinksTransitive(n, n1, DropExpiredHeads(n1, r, now, limit), [], now, limit);
    }
  }

  lemma SweepResourceShrinks(n: NodeState, r: string, now: int, limit: Limit)
    requires NodeOk(n)
    ensures var swept := SweepResource(n, r, now, limit);
            && Shrinks(n, swept.node, [], now, limit) && NodeOk(swept.node)
            && forall x | x in swept.toRelease :: NoOwn(swept.node, x)
  {
    var q := Queue(n, r);
    assert NodeOkAt(n, r);
    var n' := SweepResource(n, r, now, limit).node;
    UnexpiredSub(q, n.id, now, limit);
    SubQueueShrinks(n, n', r, [], now, limit);
  }

  lemma {:induction false} SweepShrinks(n: NodeState, rs: seq<string>, now: int, limit: Limit)
    requires NodeOk(n)
    ensures var swept := SweepQueues(n, rs, now, limit);
            && Shrinks(n, swept.node, [], now, limit) && NodeOk(swept.node)
            && forall x | x in swept.toRelease :: NoOwn(swept.node, x)
  {
    if rs == [] {
      ClockShrinks(n, n.logicalTime, [], now, limit);
    } else {
      SweepShrinks(n, rs[..|rs| - 1], now, limit);
      var before := SweepQueues(n, rs[..|rs| - 1], now, limit);
      SweepResourceShrinks(before.node, rs[|rs| - 1], now, limit);
      var last := SweepResource(before.node, rs[|rs| - 1], now, limit);
      ShrinksTransitive(n, before.node, last.node, [], now, limit);
      forall x | x in before.toRelease
        ensures NoOwn(last.node, x)
      {
        NoOwnLater(before.node, last.node, x, [], now, limit);
      }
    }
  }

  /** Every send is harmless for the node that sent it. */
  ghost predicate HarmlessOut(n: NodeState, out: seq<Send>) {
    forall s | s in out ::
      && s.packet.from == n.id
      && (Neutral(s.packet.body)
          || (s.packet.body.ReleaseMsg? && NoOwn(n, s.packet.body.resourceID)))
  }

  lemma HarmlessTo(n: NodeState, out: seq<Send>, j: Uuid)
    requires HarmlessOut(n, out)
    ensures Harmless(n, PacketsTo(out, j))
  {
    PacketsToSent(out, j);
    assert forall k | 0 <= k < |PacketsTo(out, j)| :: PacketsTo(out, j)[k] in PacketsTo(out, j);
  }

  lemma NoOwnLater(n: NodeState, n': NodeState, r: string, rs: seq<string>, now: int, limit: Limit)
    requires NoOwn(n, r) && Shrinks(n, n', rs, now, limit)
    ensures NoOwn(n', r)
  {
    assert ShrinksAt(n, n', r, r in rs, now, limit);
  }

  lemma HarmlessLater(n: NodeState, n': NodeState, out: seq<Send>, rs: seq<string>, now: int, limit: Limit)
    requires HarmlessOut(n, out) && Shrinks(n, n', rs, now, limit)
    ensures HarmlessOut(n', out)
  {
    forall r | NoOwn(n, r)
      ensures NoOwn(n', r)
    {
      NoOwnLater(n, n', r, rs, now, limit);
    }
  }

  lemma {:induction false} BroadcastReleasesEffect(n: NodeState, rs: seq<string>, orders: seq<seq<Uuid>>,
                                                   now: int, limit: Limit)
    requires |orders| == |rs| && NodeOk(n) && forall r | r in rs :: NoOwn(n, r)
    ensures var o := BroadcastReleases(n, rs, orders);
            Shrinks(n, o.node, [], now, limit) && NodeOk(o.node) && HarmlessOut(o.node, o.out)
  {
    if rs == [] {
      ClockShrinks(n, n.logicalTime, [], now, limit);
    } else {
      var k := |rs| - 1;
      BroadcastReleasesEffect(n, rs[..k], orders[..k], now, limit);
      var before := BroadcastReleases(n, rs[..k], orders[..k]);
      NoOwnLater(n, before.node, rs[k], [], now, limit);
      BroadcastReleaseEffect(before.node, rs[k], orders[k], [], now, limit);
      var last := Broadcast(before.node, ReleaseMsg(rs[k]), orders[k]);
      ShrinksTransitive(n, before.node, last.node, [], now, limit);
      HarmlessLater(before.node, last.node, before.out, [], now, limit);
    }
  }

  lemma ReleaseOwnQueue(n: NodeState, r: string, rs: seq<string>, now: int, limit: Limit)
    requires NodeOk(n) && r in rs
    ensures var n1 := WithoutFirst(n, r, n.id);
            var n2 := n1.(pendingAcks := n1.pendingAcks - {r});
            Shrinks(n, n2, rs, now, limit) && NodeOk(n2) && NoOwn(n2, r)
  {
    var n1 := WithoutFirst(n, r, n.id);
    var n2 := n1.(pendingAcks := n1.pendingAcks - {r});
    assert NodeOkAt(n, r);
    RemoveFirstSub(Queue(n, r), n.id, now, limit);
    assert Queue(n2, r) == RemoveFirst(Queue(n, r), n.id);
    SubQueueShrinks(n, n2, r, rs, now, limit);
  }

  lemma BroadcastReleaseEffect(n: NodeState, r: string, order: seq<Uuid>, rs: seq<string>, now: int, limit: Limit)
    requires NodeOk(n) && NoOwn(n, r)
    ensures var o := Broadcast(n, ReleaseMsg(r), order);
            Shrinks(n, o.node, rs, now, limit) && NodeOk(o.node) && HarmlessOut(o.node, o.out) && NoOwn(o.node, r)
  {
    BroadcastHarmless(n, ReleaseMsg(r), order);
    var o := Broadcast(n, ReleaseMsg(r), order);
    ClockShrinks(n, o.node.logicalTime, rs, now, limit);
    NoOwnLater(n, o.node, r, rs, now, limit);
  }

  lemma ReleaseLockEffect(n: NodeState, r: string, order: seq<Uuid>, rs: seq<string>, now: int, limit: Limit)
    requires NodeOk(n) && r in rs
    ensures var o := ReleaseLock(n, r, order);
            Shrinks(n, o.node, rs, now, limit) && NodeOk(o.node) && HarmlessOut(o.node, o.out) && NoOwn(o.node, r)
  {
    var n1 := WithoutFirst(n, r, n.id);
    var n2 := n1.(pendingAcks := n1.pendingAcks - {r});
    ReleaseOwnQueue(n, r, rs, now, limit);
    BroadcastReleaseEffect(n2, r, order, rs, now, limit);
    ShrinksTransitive(n, n2, Broadcast(n2, ReleaseMsg(r), order).node, rs, now, limit);
  }

  lemma {:induction false} ReleaseAllEffect(n: NodeState, rs: seq<string>, orders: seq<seq<Uuid>>,
                                            all: seq<string>, now: int, limit: Limit)
    requires |orders| == |rs| && NodeOk(n) && forall r | r in rs :: r in all
    ensures var o := ReleaseAll(n, rs, orders);
            && Shrinks(n, o.node, all, now, limit) && NodeOk(o.node) && HarmlessOut(o.node, o.out)
            && forall r | r in rs :: NoOwn(o.node, r)
  {
    if rs == [] {
      ClockShrinks(n, n.logicalTime, all, now, limit);
    } else {
      var k := |rs| - 1;
      ReleaseAllEffect(n, rs[..k], orders[..k], all, now, limit);
      var before := ReleaseAll(n, rs[..k], orders[..k]);
      ReleaseLockEffect(before.node, rs[k], orders[k], all, now, limit);
      var last := ReleaseLock(before.node, rs[k], orders[k]);
      ShrinksTransitive(n, before.node, last.node, all, now, limit);
      HarmlessLater(before.node, last.node, before.out, all, now, limit);
      forall r | r in rs[..k]
        ensures NoOwn(last.node, r)
      {
        NoOwnLater(before.node, last.node, r, all, now, limit);
      }
    }
  }
}
