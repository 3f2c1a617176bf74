/** Every reachable ring is sorted, and a lookup returns the live owners in clockwise order of their
    nearest positions, even when positions collide. */
module RingOrder {
  import opened Basics
  import opened Uuids
  import opened Placement
  import Sorting

  // ----- every reachable ring is sorted -----

  datatype Op = Add(node: NodeInfo) | Remove(id: Uuid)

  function Apply(s: RingState, op: Op, hash: string -> Position): RingState {
    match op
    case Add(node) => AddNode(s, node, hash)
    case Remove(id) => RemoveNode(s, id)
  }

  function ApplyAll(s: RingState, ops: seq<Op>, hash: string -> Position): RingState {
    if ops == [] then s else Apply(ApplyAll(s, ops[..|ops| - 1], hash), ops[|ops| - 1], hash)
  }

  function Empty(virtualNodes: nat): RingState {
    RingState([], map[], map[], virtualNodes)
  }

  lemma {:induction false} ReachableSorted(virtualNodes: nat, ops: seq<Op>, hash: string -> Position)
    ensures Sorting.Sorted(ApplyAll(Empty(virtualNodes), ops, hash).ring, Below)
    ensures ApplyAll(Empty(virtualNodes), ops, hash).virtualNodes == virtualNodes
  {
    if ops != [] {
      var s, op := ApplyAll(Empty(virtualNodes), ops[..|ops| - 1], hash), ops[|ops| - 1];
      ReachableSorted(virtualNodes, ops[..|ops| - 1], hash);
      if op.Add? {
        AddSorted(s, op.node, hash);
      } else {
        RemoveSorted(s, op.id);
      }
    }
  }

  // ----- clockwise order -----

  /** How far clockwise `p` is from `h`. */
  function Distance(h: Position, p: Position): nat {
    if h <= p then p - h else p - h + 0x1_0000_0000
  }

  lemma DistanceInjective(h: Position, p: Position, q: Position)
    requires Distance(h, p) == Distance(h, q)
    ensures p == q
  {
  }

  lemma ClockwiseMembers(ring: seq<Position>, h: Position)
    ensures |Clockwise(ring, h)| == |ring|
    ensures forall p :: p in Clockwise(ring, h) <==> p in ring
  {
    assert ring == ring[..Start(ring, h)] + ring[Start(ring, h)..];
  }

  lemma ClockwiseAscends(ring: seq<Position>, h: Position, i: nat, j: nat)
    requires Sorting.Sorted(ring, Below) && i <= j < |ring|
    ensures |Clockwise(ring, h)| == |ring| && Distance(h, Clockwise(ring, h)[i]) <= Distance(h, Clockwise(ring, h)[j])
  {
    var k := Start(ring, h);
    var a, b := if i < |ring| - k then k + i else i - (|ring| - k), if j < |ring| - k then k + j else j - (|ring| - k);
    assert Clockwise(ring, h)[i] == ring[a] && Clockwise(ring, h)[j] == ring[b];
    assert a < b ==> !Below(ring[b], ring[a]);
  }

  predicate Owns(s: RingState, x: Uuid, p: Position) {
    p in s.ring && OwnerOf(s.nodeMap, p) == x
  }

  /** `x` is in the ring's node table and owns a position. */
  ghost predicate LiveOwner(s: RingState, x: Uuid) {
    x in s.nodes && exists p :: Owns(s, x, p)
  }

  ghost predicate NearerThanAll(s: RingState, h: Position, p: Position, y: Uuid) {
    forall q | Owns(s, y, q) :: Distance(h, p) < Distance(h, q)
  }

  /** Going clockwise from `h`, a position of `x` comes before every position of `y`. */
  ghost predicate Before(s: RingState, h: Position, x: Uuid, y: Uuid) {
    exists p :: Owns(s, x, p) && NearerThanAll(s, h, p, y)
  }

  ghost predicate InPlaceOrder(s: RingState, h: Position, ids: seq<Uuid>) {
    forall i, j | 0 <= i < j < |ids| :: Before(s, h, ids[i], ids[j])
  }

  function All(s: RingState, h: Position): seq<Uuid> {
    LiveOwners(s, Clockwise(s.ring, h))
  }

  /** Membership in the list of the owners of some positions. */
  lemma {:induction false} LiveOwnersMembers(s: RingState, ps: seq<Position>)
    ensures forall x ::
              x in LiveOwners(s, ps) <==> x in s.nodes && exists k :: 0 <= k < |ps| && OwnerOf(s.nodeMap, ps[k]) == x
  {
    if ps != [] {
      var front := ps[..|ps| - 1];
      LiveOwnersMembers(s, front);
      forall x
        ensures x in LiveOwners(s, ps) <==> x in s.nodes && exists k :: 0 <= k < |ps| && OwnerOf(s.nodeMap, ps[k]) == x
      {
        if k :| 0 <= k < |ps| && OwnerOf(s.nodeMap, ps[k]) == x {
          assert k < |front| ==> front[k] == ps[k];
        }
        if k :| 0 <= k < |front| && OwnerOf(s.nodeMap, front[k]) == x {
          assert ps[k] == front[k];
        }
      }
    }
  }

  /** An owner met before place `k` is before every owner first met at `k`. */
  lemma MetFirst(s: RingState, h: Position, k: nat, m: nat)
    requires Sorting.Sorted(s.ring, Below) && m < k < |s.ring| == |Clockwise(s.ring, h)|
    requires var c := Clockwise(s.ring, h); var y := OwnerOf(s.nodeMap, c[k]);
             forall i | 0 <= i < k :: OwnerOf(s.nodeMap, c[i]) != y
    ensures var c := Clockwise(s.ring, h);
            Before(s, h, OwnerOf(s.nodeMap, c[m]), OwnerOf(s.nodeMap, c[k]))
  {
    var c := Clockwise(s.ring, h);
    var x, y := OwnerOf(s.nodeMap, c[m]), OwnerOf(s.nodeMap, c[k]);
    ClockwiseMembers(s.ring, h);
    assert Owns(s, x, c[m]);
    forall q | Owns(s, y, q)
      ensures Distance(h, c[m]) < Distance(h, q)
    {
      assert q in c;
      var i :| 0 <= i < |c| && c[i] == q;
      ClockwiseAscends(s.ring, h, m, i);
      if Distance(h, c[m]) == Distance(h, q) {
        DistanceInjective(h, c[m], q);
      }
    }
  }

  lemma OneMoreInOrder(s: RingState, h: Position, ids: seq<Uuid>, x: Uuid)
    requires InPlaceOrder(s, h, ids) && forall y | y in ids :: Before(s, h, y, x)
    ensures InPlaceOrder(s, h, ids + [x])
  {
  }

  lemma LiveOwnersNext(s: RingState, ps: seq<Position>, k: nat)
    requires k < |ps|
    ensures var before := LiveOwners(s, ps[..k]); var x := OwnerOf(s.nodeMap, ps[k]);
            LiveOwners(s, ps[..k + 1]) == if x in s.nodes && x !in before then before + [x] else before
  {
    assert ps[..k + 1][..k] == ps[..k];
  }

  /** Whoever is met before place `k` is before the owner of that place, if that one is new. */
  lemma MetBefore(s: RingState, h: Position, k: nat, y: Uuid)
    requires Sorting.Sorted(s.ring, Below) && k < |s.ring| == |Clockwise(s.ring, h)|
    requires y in LiveOwners(s, Clockwise(s.ring, h)[..k])
    requires var x := OwnerOf(s.nodeMap, Clockwise(s.ring, h)[k]);
             x in s.nodes && x !in LiveOwners(s, Clockwise(s.ring, h)[..k])
    ensures Before(s, h, y, OwnerOf(s.nodeMap, Clockwise(s.ring, h)[k]))
  {
    var c := Clockwise(s.ring, h);
    var front := c[..k];
    LiveOwnersMembers(s, front);
    var m :| 0 <= m < |front| && OwnerOf(s.nodeMap, front[m]) == y;
    assert forall i | 0 <= i < k :: front[i] == c[i];
    MetFirst(s, h, k, m);
  }

  lemma {:induction false} PrefixInOrder(s: RingState, h: Position, k: nat)
    requires Sorting.Sorted(s.ring, Below) && k <= |s.ring| == |Clockwise(s.ring, h)|
    ensures InPlaceOrder(s, h, LiveOwners(s, Clockwise(s.ring, h)[..k]))
    decreases k
  {
    if k > 0 {
      var c := Clockwise(s.ring, h);
      var before, x := LiveOwners(s, c[..k - 1]), OwnerOf(s.nodeMap, c[k - 1]);
      PrefixInOrder(s, h, k - 1);
      LiveOwnersNext(s, c, k - 1);
      if x in s.nodes && x !in before {
        forall y | y in before
          ensures Before(s, h, y, x)
        {
          MetBefore(s, h, k - 1, y);
        }
        OneMoreInOrder(s, h, before, x);
      }
    }
  }

  lemma AllIsOrdered(s: RingState, h: Position)
    requires Sorting.Sorted(s.ring, Below)
    ensures InPlaceOrder(s, h, All(s, h))
    ensures forall x :: x in All(s, h) <==> LiveOwner(s, x)
  {
    var c := Clockwise(s.ring, h);
    ClockwiseMembers(s.ring, h);
    assert c[..|c|] == c;
    PrefixInOrder(s, h, |c|);
    LiveOwnersMembers(s, c);
    forall x
      ensures x in All(s, h) <==> LiveOwner(s, x)
    {
      if p :| Owns(s, x, p) {
        assert p in c;
      }
      if k :| 0 <= k < |c| && OwnerOf(s.nodeMap, c[k]) == x {
        assert Owns(s, x, c[k]);
      }
    }
  }

  /** A lookup on any sorted ring returns live owners in strict clockwise order; one it leaves out comes
      after all of them, and none is left out unless there are `n`. */
  lemma FindIsNearest(s: RingState, h: Position, n: nat)
    requires Sorting.Sorted(s.ring, Below)
    ensures var r := FindIds(s, h, n);
            && |r| <= n
            && InPlaceOrder(s, h, r)
            && (forall x | x in r :: LiveOwner(s, x))
            && forall x | LiveOwner(s, x) && x !in r :: |r| == n && forall y | y in r :: Before(s, h, y, x)
  {
    AllIsOrdered(s, h);
    var all, r := All(s, h), FindIds(s, h, n);
    forall x | LiveOwner(s, x) && x !in r
      ensures |r| == n && forall y | y in r :: Before(s, h, y, x)
    {
      assert x in all;
      var j :| 0 <= j < |all| && all[j] == x;
      assert j >= |r|;
    }
  }

  // ----- how many -----

  ghost function LiveOwnerSet(s: RingState): set<Uuid> {
    set x | x in s.nodes && LiveOwner(s, x)
  }

  lemma BeforeAsymmetric(s: RingState, h: Position, x: Uuid, y: Uuid)
    requires Before(s, h, x, y)
    ensures !Before(s, h, y, x)
  {
    var p :| Owns(s, x, p) && NearerThanAll(s, h, p, y);
    if q :| Owns(s, y, q) && NearerThanAll(s, h, q, x) {
      assert false;
    }
  }

  lemma OrderedDistinct(s: RingState, h: Position, ids: seq<Uuid>, i: int, j: int)
    requires InPlaceOrder(s, h, ids) && 0 <= i < j < |ids|
    ensures ids[i] != ids[j]
  {
    if ids[i] == ids[j] {
      BeforeAsymmetric(s, h, ids[i], ids[j]);
    }
  }

  lemma {:induction false} DistinctCount<T>(q: seq<T>, a: set<T>)
    requires (forall i, j | 0 <= i < j < |q| :: q[i] != q[j]) && forall x :: x in q <==> x in a
    ensures |q| == |a|
  {
    if q != [] {
      var last := q[|q| - 1];
      assert forall x :: x in q[..|q| - 1] <==> x in a - {last};
      DistinctCount(q[..|q| - 1], a - {last});
    }
  }

  /** Exactly as many as asked for, or all live owners. */
  lemma FindCount(s: RingState, h: Position, n: nat)
    requires Sorting.Sorted(s.ring, Below)
    ensures |FindIds(s, h, n)| == Min(n, |LiveOwnerSet(s)|)
  {
    AllIsOrdered(s, h);
    forall i, j | 0 <= i < j < |All(s, h)|
      ensures All(s, h)[i] != All(s, h)[j]
    {
      OrderedDistinct(s, h, All(s, h), i, j);
    }
    DistinctCount(All(s, h), LiveOwnerSet(s));
  }
}
