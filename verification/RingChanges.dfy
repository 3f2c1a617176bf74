/** With pairwise distinct virtual positions the ring depends on its nodes alone, and adding or removing
    one node changes each lookup by at most that node. */
module RingChanges {
  import opened Basics
  import opened Uuids
  import opened Placement
  import opened RingOrder
  import Sorting

  /** The virtual positions of the nodes `ids` are pairwise distinct. */
  ghost predicate DistinctPositions(ids: set<Uuid>, count: nat, hash: string -> Position) {
    forall x, y, i, j | x in ids && y in ids && 0 <= i < count && 0 <= j < count ::
      Positions(x, count, hash)[i] == Positions(y, count, hash)[j] ==> x == y && i == j
  }

  predicate Ascends(q: seq<Position>) {
    forall i, j | 0 <= i < j < |q| :: q[i] < q[j]
  }

  /** At `p` the ring and the owner map are those of the current nodes. */
  ghost predicate ExactAt(s: RingState, hash: string -> Position, p: Position) {
    && (p in s.ring <==> p in s.nodeMap)
    && (p in s.nodeMap ==> s.nodeMap[p] in s.nodes && p in Positions(s.nodeMap[p], s.virtualNodes, hash))
    && (forall x | x in s.nodes && p in Positions(x, s.virtualNodes, hash) :: p in s.nodeMap && s.nodeMap[p] == x)
  }

  /** The ring is the sorted sequence of the positions of the current nodes and the owner map is exact. */
  ghost predicate Exact(s: RingState, hash: string -> Position) {
    && Ascends(s.ring)
    && (forall p :: ExactAt(s, hash, p))
    && (forall x | x in s.nodes :: s.nodes[x].id == x)
  }

  // ----- adding -----

  lemma {:induction false} AssignIs(m: map<Position, Uuid>, ps: seq<Position>, id: Uuid)
    ensures forall p :: p in Assign(m, ps, id) <==> p in m || p in ps
    ensures forall p | p in Assign(m, ps, id) :: Assign(m, ps, id)[p] == if p in ps then id else m[p]
  {
    if ps != [] {
      AssignIs(m, ps[..|ps| - 1], id);
    }
  }

  lemma {:induction false} CountsOne<T>(q: seq<T>, x: T)
    requires NoRepeats(q)
    ensures multiset(q)[x] <= 1
  {
    if q != [] {
      assert q == q[..|q| - 1] + [q[|q| - 1]];
      CountsOne(q[..|q| - 1], x);
      if x == q[|q| - 1] {
        assert x !in q[..|q| - 1];
      }
    }
  }

  lemma PairCountsTwo<T>(q: seq<T>, i: nat, j: nat)
    requires i < j < |q| && q[i] == q[j]
    ensures multiset(q)[q[i]] >= 2
  {
    assert q == q[..j] + [q[j]] + q[j + 1..];
    assert q[i] in q[..j];
  }

  lemma SortAscends(q: seq<Position>)
    requires NoRepeats(q)
    ensures Ascends(Sorting.SliceStable(q, Below)) && forall p :: p in Sorting.SliceStable(q, Below) <==> p in q
  {
    var r := Sorting.SliceStable(q, Below);
    Sorting.SliceStableSorted(q, Below);
    Sorting.SliceStablePermutes(q, Below);
    Sorting.SliceStableMembers(q, Below);
    forall i, j | 0 <= i < j < |r|
      ensures r[i] < r[j]
    {
      assert !Below(r[j], r[i]);
      if r[i] == r[j] {
        PairCountsTwo(r, i, j);
        CountsOne(q, r[i]);
      }
    }
  }

  lemma OneOwner(ids: set<Uuid>, count: nat, hash: string -> Position, x: Uuid, y: Uuid, p: Position)
    requires DistinctPositions(ids, count, hash) && x in ids && y in ids
    requires p in Positions(x, count, hash) && p in Positions(y, count, hash)
    ensures x == y
  {
    var i :| 0 <= i < count && Positions(x, count, hash)[i] == p;
    var j :| 0 <= j < count && Positions(y, count, hash)[j] == p;
  }

  lemma JoinNoRepeats<T>(a: seq<T>, b: seq<T>)
    requires NoRepeats(a) && NoRepeats(b) && forall x | x in b :: x !in a
    ensures NoRepeats(a + b)
  {
    forall i, j | 0 <= i < j < |a + b|
      ensures (a + b)[i] != (a + b)[j]
    {
      if i < |a| <= j {
        assert a[i] in a && b[j - |a|] in b;
      }
    }
  }

  lemma FreshPositions(s: RingState, id: Uuid, hash: string -> Position)
    requires Exact(s, hash) && id !in s.nodes && DistinctPositions(s.nodes.Keys + {id}, s.virtualNodes, hash)
    ensures NoRepeats(s.ring + Positions(id, s.virtualNodes, hash))
    ensures forall p | p in Positions(id, s.virtualNodes, hash) :: p !in s.nodeMap && p !in s.ring
  {
    var ps := Positions(id, s.virtualNodes, hash);
    forall p | p in ps
      ensures p !in s.nodeMap && p !in s.ring
    {
      assert ExactAt(s, hash, p);
      if p in s.nodeMap {
        OneOwner(s.nodes.Keys + {id}, s.virtualNodes, hash, id, s.nodeMap[p], p);
      }
    }
    assert id in s.nodes.Keys + {id};
    JoinNoRepeats(s.ring, ps);
  }

  lemma AddExact(s: RingState, node: NodeInfo, hash: string -> Position)
    requires Exact(s, hash) && DistinctPositions(s.nodes.Keys + {node.id}, s.virtualNodes, hash)
    ensures Exact(AddNode(s, node, hash), hash)
  {
    if node.id !in s.nodes {
      var ps := Positions(node.id, s.virtualNodes, hash);
      FreshPositions(s, node.id, hash);
      SortAscends(s.ring + ps);
      AssignIs(s.nodeMap, ps, node.id);
      forall p
        ensures ExactAt(AddNode(s, node, hash), hash, p)
      {
        assert ExactAt(s, hash, p);
      }
    }
  }

  // ----- removing -----

  /** `kept` and `rest` are what is left of the ring and its map without the positions of `id`. */
  ghost predicate Cut(ring: seq<Position>, m: map<Position, Uuid>, id: Uuid,
                      kept: seq<Position>, rest: map<Position, Uuid>)
  {
    && Ascends(kept)
    && (forall p :: p in kept <==> p in ring && OwnerOf(m, p) != id)
    && (forall p :: p in rest <==> p in m && !(p in ring && m[p] == id))
    && (forall p | p in rest :: rest[p] == m[p])
  }

  lemma CutOne(front: seq<Position>, p: Position, m: map<Position, Uuid>, id: Uuid, kept: seq<Position>,
               rest: map<Position, Uuid>)
    requires Cut(front, m, id, kept, rest) && p in m && forall q | q in front :: q < p
    ensures if m[p] == id then Cut(front + [p], m, id, kept, rest - {p}) else Cut(front + [p], m, id, kept + [p], rest)
  {
    assert (forall q | q in kept :: q < p) && p !in front;
    assert forall q :: q in front + [p] <==> q in front || q == p;
    if m[p] != id {
      assert forall q :: q in kept + [p] <==> q in kept || q == p;
      AscendsOne(kept, p);
    }
  }

  lemma AscendsOne(q: seq<Position>, p: Position)
    requires Ascends(q) && forall x | x in q :: x < p
    ensures Ascends(q + [p])
  {
    forall i, j | 0 <= i < j < |q + [p]|
      ensures (q + [p])[i] < (q + [p])[j]
    {
      assert q[i] in q;
    }
  }

  lemma {:induction false} SweepExact(ring: seq<Position>, m: map<Position, Uuid>, id: Uuid)
    requires Ascends(ring) && forall p | p in ring :: p in m
    ensures Cut(ring, m, id, Sweep(ring, m, id).0, Sweep(ring, m, id).1)
  {
    if ring != [] {
      var front, p := ring[..|ring| - 1], ring[|ring| - 1];
      var (kept, rest) := Sweep(front, m, id);
      AscendingFront(ring);
      SweepExact(front, m, id);
      CutOne(front, p, m, id, kept, rest);
      assert OwnerOf(rest, p) == m[p] && front + [p] == ring;
    }
  }

  lemma CutEntry(s: RingState, id: Uuid, hash: string -> Position, t: RingState, p: Position)
    requires ExactAt(s, hash, p) && Cut(s.ring, s.nodeMap, id, t.ring, t.nodeMap)
    requires t.nodes == s.nodes - {id} && t.virtualNodes == s.virtualNodes
    ensures ExactAt(t, hash, p)
  {
  }

  lemma RemoveExact(s: RingState, id: Uuid, hash: string -> Position)
    requires Exact(s, hash)
    ensures Exact(RemoveNode(s, id), hash)
  {
    if id in s.nodes {
      forall p
        ensures p in s.ring ==> p in s.nodeMap
      {
        assert ExactAt(s, hash, p);
      }
      SweepExact(s.ring, s.nodeMap, id);
      forall p
        ensures ExactAt(RemoveNode(s, id), hash, p)
      {
        assert ExactAt(s, hash, p);
        CutEntry(s, id, hash, RemoveNode(s, id), p);
      }
    }
  }

  // ----- every history -----

  /** After any sequence of AddNode and RemoveNode on nodes with distinct positions. */
  lemma {:induction false} ReachableExact(virtualNodes: nat, ops: seq<Op>, hash: string -> Position, ids: set<Uuid>)
    requires DistinctPositions(ids, virtualNodes, hash)
    requires forall op | op in ops && op.Add? :: op.node.id in ids
    ensures var s := ApplyAll(Empty(virtualNodes), ops, hash);
            Exact(s, hash) && s.nodes.Keys <= ids && s.virtualNodes == virtualNodes
  {
    if ops != [] {
      var front, op := ops[..|ops| - 1], ops[|ops| - 1];
      ReachableExact(virtualNodes, front, hash, ids);
      var s := ApplyAll(Empty(virtualNodes), front, hash);
      match op
      case Add(node) =>
        assert s.nodes.Keys + {node.id} <= ids;
        AddExact(s, node, hash);
      case Remove(id) => RemoveExact(s, id, hash);
    }
  }

  lemma AscendingFront(a: seq<Position>)
    requires Ascends(a) && a != []
    ensures Ascends(a[..|a| - 1]) && a == a[..|a| - 1] + [a[|a| - 1]]
    ensures forall p :: p in a[..|a| - 1] <==> p in a && p != a[|a| - 1]
    ensures forall p | p in a :: p <= a[|a| - 1]
  {
  }

  lemma {:induction false} SameAscending(a: seq<Position>, b: seq<Position>)
    requires Ascends(a) && Ascends(b) && forall p :: p in a <==> p in b
    ensures a == b
  {
    assert (a != [] ==> a[0] in b) && (b != [] ==> b[0] in a);
    if a != [] && b != [] {
      AscendingFront(a);
      AscendingFront(b);
      assert a[|a| - 1] in b && b[|b| - 1] in a;
      var a', b' := a[..|a| - 1], b[..|b| - 1];
      forall p
        ensures p in a' <==> p in b'
      {
        assert p in a <==> p in b;
      }
      SameAscending(a', b');
    }
  }

  lemma SameEntry(s: RingState, t: RingState, hash: string -> Position, p: Position)
    requires ExactAt(s, hash, p) && ExactAt(t, hash, p) && s.nodes == t.nodes && s.virtualNodes == t.virtualNodes
    ensures p in s.nodeMap <==> p in t.nodeMap
    ensures p in s.nodeMap ==> t.nodeMap[p] == s.nodeMap[p]
    ensures p in s.ring <==> p in t.ring
  {
  }

  /** The ring does not depend on how its nodes came about. */
  lemma SameNodesSameRing(s: RingState, t: RingState, hash: string -> Position)
    requires Exact(s, hash) && Exact(t, hash) && s.nodes == t.nodes && s.virtualNodes == t.virtualNodes
    ensures s == t
  {
    forall p
      ensures p in s.nodeMap <==> p in t.nodeMap
      ensures p in s.nodeMap ==> t.nodeMap[p] == s.nodeMap[p]
      ensures p in s.ring <==> p in t.ring
    {
      assert ExactAt(s, hash, p) && ExactAt(t, hash, p);
      SameEntry(s, t, hash, p);
    }
    assert s.nodeMap == t.nodeMap;
    SameAscending(s.ring, t.ring);
  }

  /** Removing a node that was just added restores the ring, and so does the reverse. */
  lemma AddThenRemove(s: RingState, node: NodeInfo, hash: string -> Position)
    requires Exact(s, hash) && node.id !in s.nodes && DistinctPositions(s.nodes.Keys + {node.id}, s.virtualNodes, hash)
    ensures RemoveNode(AddNode(s, node, hash), node.id) == s
  {
    AddExact(s, node, hash);
    RemoveExact(AddNode(s, node, hash), node.id, hash);
    SameNodesSameRing(RemoveNode(AddNode(s, node, hash), node.id), s, hash);
  }

  lemma NodesRestored(nodes: map<Uuid, NodeInfo>, id: Uuid)
    requires id in nodes
    ensures (nodes - {id})[id := nodes[id]] == nodes && (nodes - {id}).Keys + {id} == nodes.Keys
  {
  }

  lemma RemoveThenAdd(s: RingState, id: Uuid, hash: string -> Position)
    requires Exact(s, hash) && id in s.nodes && DistinctPositions(s.nodes.Keys, s.virtualNodes, hash)
    ensures AddNode(RemoveNode(s, id), s.nodes[id], hash) == s
  {
    var t, node := RemoveNode(s, id), s.nodes[id];
    assert node.id == id;
    RemoveExact(s, id, hash);
    NodesRestored(s.nodes, id);
    AddExact(t, node, hash);
    SameNodesSameRing(AddNode(t, node, hash), s, hash);
  }

  // ----- minimal disruption -----

  function Without<T(==)>(q: seq<T>, x: T): seq<T> {
    if q == [] then []
    else Without(q[..|q| - 1], x) + if q[|q| - 1] == x then [] else [q[|q| - 1]]
  }

  lemma {:induction false} WithoutMembers<T>(q: seq<T>, x: T)
    ensures forall y :: y in Without(q, x) <==> y in q && y != x
  {
    if q != [] {
      WithoutMembers(q[..|q| - 1], x);
      assert q == q[..|q| - 1] + [q[|q| - 1]];
    }
  }

  lemma {:induction false} WithoutPrefix<T>(q: seq<T>, k: nat, x: T)
    requires k <= |q|
    ensures Without(q[..k], x) <= Without(q, x)
    decreases |q|
  {
    if k < |q| {
      assert q[..|q| - 1][..k] == q[..k];
      WithoutPrefix(q[..|q| - 1], k, x);
    } else {
      assert q[..k] == q;
    }
  }

  lemma {:induction false} WithoutLength<T>(q: seq<T>, x: T)
    requires NoRepeats(q)
    ensures |Without(q, x)| == if x in q then |q| - 1 else |q|
  {
    if q != [] {
      WithoutLength(q[..|q| - 1], x);
      assert q == q[..|q| - 1] + [q[|q| - 1]];
    }
  }

  /** Deleting a node keeps the order of the others. */
  lemma {:induction false} WithoutInOrder(s: RingState, h: Position, q: seq<Uuid>, x: Uuid)
    requires InPlaceOrder(s, h, q)
    ensures InPlaceOrder(s, h, Without(q, x))
  {
    if q != [] {
      var front, last := q[..|q| - 1], q[|q| - 1];
      assert forall i | 0 <= i < |front| :: front[i] == q[i];
      WithoutInOrder(s, h, front, x);
      WithoutMembers(front, x);
      assert forall y | y in front :: Before(s, h, y, last);
    }
  }

  /** Two lists of the same nodes in clockwise order are the same list. */
  lemma {:induction false} OneOrder(s: RingState, h: Position, a: seq<Uuid>, b: seq<Uuid>)
    requires InPlaceOrder(s, h, a) && InPlaceOrder(s, h, b) && forall x :: x in a <==> x in b
    ensures a == b
  {
    assert (a != [] ==> a[0] in b) && (b != [] ==> b[0] in a);
    if a != [] && b != [] {
      var x := a[|a| - 1];
      LastIsSame(s, h, a, b);
      var a', b' := a[..|a| - 1], b[..|b| - 1];
      DropLast(s, h, a);
      DropLast(s, h, b);
      forall p
        ensures p in a' <==> p in b'
      {
        assert p in a <==> p in b;
      }
      OneOrder(s, h, a', b');
      assert a == a' + [x] && b == b' + [x];
    }
  }

  lemma LastIsSame(s: RingState, h: Position, a: seq<Uuid>, b: seq<Uuid>)
    requires InPlaceOrder(s, h, a) && InPlaceOrder(s, h, b) && a != [] && b != [] && forall x :: x in a <==> x in b
    ensures a[|a| - 1] == b[|b| - 1]
  {
    var x, y := a[|a| - 1], b[|b| - 1];
    assert x in b && y in a;
    if x != y {
      assert Before(s, h, x, y) && Before(s, h, y, x);
      BeforeAsymmetric(s, h, x, y);
    }
  }

  lemma DropLast(s: RingState, h: Position, a: seq<Uuid>)
    requires InPlaceOrder(s, h, a) && a != []
    ensures InPlaceOrder(s, h, a[..|a| - 1])
    ensures forall p :: p in a[..|a| - 1] <==> p in a && p != a[|a| - 1]
  {
    var a', x := a[..|a| - 1], a[|a| - 1];
    forall i | 0 <= i < |a'|
      ensures a'[i] != x
    {
      OrderedDistinct(s, h, a, i, |a| - 1);
    }
    assert a == a' + [x];
  }

  lemma OwnsIff(s: RingState, hash: string -> Position, x: Uuid, p: Position)
    requires Exact(s, hash) && x in s.nodes
    ensures Owns(s, x, p) <==> p in Positions(x, s.virtualNodes, hash)
  {
    assert ExactAt(s, hash, p);
  }

  /** The other nodes keep their order. */
  lemma BeforeUnchanged(s: RingState, t: RingState, hash: string -> Position, h: Position, x: Uuid, y: Uuid)
    requires Exact(s, hash) && Exact(t, hash) && s.virtualNodes == t.virtualNodes
    requires x in s.nodes && x in t.nodes && y in s.nodes && y in t.nodes && Before(t, h, x, y)
    ensures Before(s, h, x, y)
  {
    var p :| Owns(t, x, p) && NearerThanAll(t, h, p, y);
    OwnsIff(t, hash, x, p);
    OwnsIff(s, hash, x, p);
    forall q | Owns(s, y, q)
      ensures Distance(h, p) < Distance(h, q)
    {
      OwnsIff(s, hash, y, q);
      OwnsIff(t, hash, y, q);
    }
  }

  lemma LiveUnchanged(s: RingState, t: RingState, hash: string -> Position, x: Uuid)
    requires Exact(s, hash) && Exact(t, hash) && s.virtualNodes == t.virtualNodes && x in s.nodes && x in t.nodes
    ensures LiveOwner(s, x) <==> LiveOwner(t, x)
  {
    if p :| Owns(s, x, p) {
      OwnsIff(s, hash, x, p);
      OwnsIff(t, hash, x, p);
    }
    if p :| Owns(t, x, p) {
      OwnsIff(s, hash, x, p);
      OwnsIff(t, hash, x, p);
    }
  }

  lemma ExactSorted(s: RingState, hash: string -> Position)
    requires Exact(s, hash)
    ensures Sorting.Sorted(s.ring, Below)
  {
  }

  /** `t` has one node more than `s`: its full clockwise order without that node is that of `s`. */
  lemma OneMore(s: RingState, t: RingState, hash: string -> Position, h: Position, id: Uuid)
    requires Exact(s, hash) && Exact(t, hash) && s.virtualNodes == t.virtualNodes
    requires id !in s.nodes && t.nodes.Keys == s.nodes.Keys + {id}
    ensures Without(All(t, h), id) == All(s, h)
  {
    ExactSorted(s, hash);
    ExactSorted(t, hash);
    AllIsOrdered(s, h);
    AllIsOrdered(t, h);
    var kept := Without(All(t, h), id);
    WithoutMembers(All(t, h), id);
    WithoutInOrder(t, h, All(t, h), id);
    forall x
      ensures x in kept <==> x in All(s, h)
    {
      if x in s.nodes {
        LiveUnchanged(s, t, hash, x);
      }
    }
    forall i, j | 0 <= i < j < |kept|
      ensures Before(s, h, kept[i], kept[j])
    {
      assert kept[i] in kept && kept[j] in kept;
      BeforeUnchanged(s, t, hash, h, kept[i], kept[j]);
    }
    OneOrder(s, h, kept, All(s, h));
  }

  /** The first `n` without `x` are the start of the first `n` of those without `x`, short by at most one. */
  lemma FirstWithout<T>(q: seq<T>, x: T, n: nat)
    requires NoRepeats(q)
    ensures var kept := Without(q[..Min(n, |q|)], x); var rest := Without(q, x);
            kept <= rest[..Min(n, |rest|)] && Min(n, |rest|) - 1 <= |kept|
  {
    var cut := q[..Min(n, |q|)];
    WithoutPrefix(q, Min(n, |q|), x);
    WithoutLength(cut, x);
    WithoutLength(q, x);
  }

  lemma AllDistinct(t: RingState, h: Position)
    requires Sorting.Sorted(t.ring, Below)
    ensures NoRepeats(All(t, h))
  {
    AllIsOrdered(t, h);
    forall i, j | 0 <= i < j < |All(t, h)|
      ensures All(t, h)[i] != All(t, h)[j]
    {
      OrderedDistinct(t, h, All(t, h), i, j);
    }
  }

  /** The lookup with the node, without the node, is the start of the lookup before, short by at most one. */
  lemma OneMoreFind(s: RingState, t: RingState, hash: string -> Position, h: Position, id: Uuid, n: nat)
    requires Exact(s, hash) && Exact(t, hash) && s.virtualNodes == t.virtualNodes
    requires id !in s.nodes && t.nodes.Keys == s.nodes.Keys + {id}
    ensures var kept := Without(FindIds(t, h, n), id);
            kept <= FindIds(s, h, n) && |FindIds(s, h, n)| - 1 <= |kept|
  {
    OneMore(s, t, hash, h, id);
    ExactSorted(t, hash);
    AllDistinct(t, h);
    FirstWithout(All(t, h), id, n);
  }

  lemma AddDisruptsLittle(s: RingState, node: NodeInfo, hash: string -> Position, h: Position, n: nat)
    requires Exact(s, hash) && node.id !in s.nodes && DistinctPositions(s.nodes.Keys + {node.id}, s.virtualNodes, hash)
    ensures var before := FindIds(s, h, n); var kept := Without(FindIds(AddNode(s, node, hash), h, n), node.id);
            kept <= before && |before| - 1 <= |kept|
  {
    AddExact(s, node, hash);
    OneMoreFind(s, AddNode(s, node, hash), hash, h, node.id, n);
  }

  lemma RemoveDisruptsLittle(s: RingState, id: Uuid, hash: string -> Position, h: Position, n: nat)
    requires Exact(s, hash) && id in s.nodes
    ensures var kept := Without(FindIds(s, h, n), id); var after := FindIds(RemoveNode(s, id), h, n);
            kept <= after && |after| - 1 <= |kept|
  {
    RemoveExact(s, id, hash);
    OneMoreFind(RemoveNode(s, id), s, hash, h, id, n);
  }
}
