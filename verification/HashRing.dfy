/** The consistent-hash ring as a value and what each operation of backend/dfs/hashing/hash.go does to it.
    CRC32 is any function from text to 32-bit positions. */
module Placement {
  import opened Basics
  import opened Uuids
  import Sorting

  type Position = x: int | 0 <= x < 0x1_0000_0000

  const DEFAULT_VIRTUAL_NODES := 150

  datatype NodeInfo = NodeInfo(id: Uuid, ip: string, port: int, priority: int)

  datatype RingState = RingState(
    ring: seq<Position>,
    nodeMap: map<Position, Uuid>,
    nodes: map<Uuid, NodeInfo>,
    virtualNodes: nat)

  predicate Below(a: Position, b: Position) { a < b }

  function Decimal(n: nat): string {
    (if n < 10 then "" else Decimal(n / 10)) + ['0' + (n % 10) as char]
  }

  function GenerateVirtualNodeKey(id: Uuid, i: nat): string {
    Text(id) + "#" + Decimal(i)
  }

  /** The positions of a node, in the order in which it takes them. */
  function Positions(id: Uuid, count: nat, hash: string -> Position): (ps: seq<Position>)
    ensures |ps| == count
    ensures forall i | 0 <= i < count :: ps[i] == hash(GenerateVirtualNodeKey(id, i))
  {
    if count == 0 then [] else Positions(id, count - 1, hash) + [hash(GenerateVirtualNodeKey(id, count - 1))]
  }

  /** The zero identifier is what a Go map gives for a position without an entry. */
  function OwnerOf(m: map<Position, Uuid>, p: Position): Uuid {
    if p in m then m[p] else NIL
  }

  function Assign(m: map<Position, Uuid>, ps: seq<Position>, id: Uuid): map<Position, Uuid> {
    if ps == [] then m else Assign(m, ps[..|ps| - 1], id)[ps[|ps| - 1] := id]
  }

  function AddNode(s: RingState, node: NodeInfo, hash: string -> Position): RingState {
    if node.id in s.nodes then s
    else
      var ps := Positions(node.id, s.virtualNodes, hash);
      s.(nodes := s.nodes[node.id := node],
         ring := Sorting.SliceStable(s.ring + ps, Below),
         nodeMap := Assign(s.nodeMap, ps, node.id))
  }

  /** The scan of RemoveNode deletes an owner entry at its first position, so a second, colliding one stays. */
  function Sweep(ring: seq<Position>, m: map<Position, Uuid>, id: Uuid): (seq<Position>, map<Position, Uuid>) {
    if ring == [] then ([], m)
    else
      var (kept, rest) := Sweep(ring[..|ring| - 1], m, id);
      var p := ring[|ring| - 1];
      if OwnerOf(rest, p) == id then (kept, rest - {p}) else (kept + [p], rest)
  }

  function RemoveNode(s: RingState, id: Uuid): RingState {
    if id !in s.nodes then s
    else
      var (kept, rest) := Sweep(s.ring, s.nodeMap, id);
      RingState(kept, rest, s.nodes - {id}, s.virtualNodes)
  }

  // ----- the ring stays sorted -----

  lemma {:induction false} SweepKeeps(ring: seq<Position>, m: map<Position, Uuid>, id: Uuid)
    requires Sorting.Sorted(ring, Below)
    ensures var (kept, rest) := Sweep(ring, m, id);
            Sorting.Sorted(kept, Below) && forall p | p in kept :: p in ring
  {
    if ring != [] {
      var front, p := ring[..|ring| - 1], ring[|ring| - 1];
      assert forall i | 0 <= i < |front| :: front[i] == ring[i];
      SweepKeeps(front, m, id);
      assert forall q | q in front :: !Below(p, q);
      Sorting.AppendSorted(Sweep(front, m, id).0, p, Below);
    }
  }

  lemma AddSorted(s: RingState, node: NodeInfo, hash: string -> Position)
    requires Sorting.Sorted(s.ring, Below)
    ensures Sorting.Sorted(AddNode(s, node, hash).ring, Below)
  {
    Sorting.SliceStableSorted(s.ring + Positions(node.id, s.virtualNodes, hash), Below);
  }

  lemma RemoveSorted(s: RingState, id: Uuid)
    requires Sorting.Sorted(s.ring, Below)
    ensures Sorting.Sorted(RemoveNode(s, id).ring, Below)
  {
    SweepKeeps(s.ring, s.nodeMap, id);
  }

  // ----- lookup -----

  ghost predicate IsStart(ring: seq<Position>, h: Position, k: int) {
    && 0 <= k <= |ring|
    && (forall i | 0 <= i < k :: ring[i] < h)
    && (forall i | k <= i < |ring| :: h <= ring[i])
  }

  /** The first place of the ring at or after `h`. */
  function Start(ring: seq<Position>, h: Position): (k: nat)
    ensures k <= |ring|
    ensures Sorting.Sorted(ring, Below) ==> IsStart(ring, h, k)
  {
    if ring == [] || h <= ring[0] then 0 else 1 + Start(ring[1..], h)
  }

  /** The ring read clockwise from `h`. */
  function Clockwise(ring: seq<Position>, h: Position): seq<Position> {
    ring[Start(ring, h)..] + ring[..Start(ring, h)]
  }

  /** The live owners of the positions, each at its first position. */
  function LiveOwners(s: RingState, ps: seq<Position>): seq<Uuid> {
    if ps == [] then []
    else
      var before := LiveOwners(s, ps[..|ps| - 1]);
      var x := OwnerOf(s.nodeMap, ps[|ps| - 1]);
      if x in s.nodes && x !in before then before + [x] else before
  }

  function FindIds(s: RingState, h: Position, n: nat): seq<Uuid> {
    var all := LiveOwners(s, Clockwise(s.ring, h));
    all[..Min(n, |all|)]
  }

  /** `infos` are the descriptions of the nodes `ids`. */
  predicate InfosOf(s: RingState, ids: seq<Uuid>, infos: seq<NodeInfo>) {
    |infos| == |ids| && forall i | 0 <= i < |ids| :: ids[i] in s.nodes && infos[i] == s.nodes[ids[i]]
  }

  lemma {:induction false} LiveOwnersPrefix(s: RingState, ps: seq<Position>, i: nat)
    requires i <= |ps|
    ensures LiveOwners(s, ps[..i]) <= LiveOwners(s, ps)
    decreases |ps|
  {
    if i < |ps| {
      assert ps[..|ps| - 1][..i] == ps[..i];
      LiveOwnersPrefix(s, ps[..|ps| - 1], i);
    } else {
      assert ps[..i] == ps;
    }
  }

  /** What the scan of FindNodesForFile has collected from the positions `ps`. */
  ghost predicate Collected(s: RingState, ps: seq<Position>, seen: set<Uuid>, result: seq<NodeInfo>) {
    && InfosOf(s, LiveOwners(s, ps), result)
    && forall x | x in s.nodes :: x in seen <==> x in LiveOwners(s, ps)
  }

  /** The same for the first `i` positions clockwise from `h`. */
  ghost predicate CollectedUpTo(s: RingState, h: Position, i: int, seen: set<Uuid>, result: seq<NodeInfo>) {
    0 <= i <= |Clockwise(s.ring, h)| && Collected(s, Clockwise(s.ring, h)[..i], seen, result)
  }

  lemma CollectNext(s: RingState, h: Position, i: nat, seen: set<Uuid>, result: seq<NodeInfo>)
    requires i < |Clockwise(s.ring, h)| && CollectedUpTo(s, h, i, seen, result)
    ensures var x := OwnerOf(s.nodeMap, Clockwise(s.ring, h)[i]);
            if x in seen then CollectedUpTo(s, h, i + 1, seen, result)
            else CollectedUpTo(s, h, i + 1, seen + {x}, if x in s.nodes then result + [s.nodes[x]] else result)
  {
    var c := Clockwise(s.ring, h);
    assert c[..i + 1][..i] == c[..i];
  }

  /** Stopping at `n` nodes or after the whole ring leaves the first `n` live owners. */
  lemma CollectedAll(s: RingState, h: Position, n: nat, i: nat, seen: set<Uuid>, result: seq<NodeInfo>)
    requires CollectedUpTo(s, h, i, seen, result)
    requires |result| <= n && (i == |s.ring| || |result| == n)
    ensures InfosOf(s, FindIds(s, h, n), result)
  {
    var c := Clockwise(s.ring, h);
    LiveOwnersPrefix(s, c, i);
    assert c[..|s.ring|] == c;
  }

  lemma {:induction false} StartIs(ring: seq<Position>, h: Position, k: int)
    requires IsStart(ring, h, k)
    ensures Start(ring, h) == k
  {
    if ring != [] && ring[0] < h {
      assert forall i | 0 <= i < |ring[1..]| :: ring[1..][i] == ring[i + 1];
      StartIs(ring[1..], h, k - 1);
    }
  }

  lemma Wrap(a: nat, b: nat)
    requires 0 < b && a < 2 * b
    ensures a % b == if a < b then a else a - b
  {
    if a >= b {
      assert a == b + (a - b);
    }
  }

  /** Wrapping around the end of the ring reads it clockwise. */
  lemma RotatedAt(ring: seq<Position>, h: Position, idx: nat, i: nat)
    requires i < |ring| && idx == if Start(ring, h) == |ring| then 0 else Start(ring, h)
    ensures Clockwise(ring, h)[i] == ring[(idx + i) % |ring|]
  {
    Wrap(idx + i, |ring|);
  }
}

/** The ring object: its fields and methods, each proved against the function of Placement. */
module HashRing {
  import opened Uuids
  import opened Placement
  import Sorting

  class Ring {
    var ring: seq<Position>
    var nodeMap: map<Position, Uuid>
    var nodes: map<Uuid, NodeInfo>
    const virtualNodes: nat
    const hash: string -> Position

    constructor (virtualNodes: int, hash: string -> Position)
      ensures this.hash == hash && this.virtualNodes == if virtualNodes <= 0 then DEFAULT_VIRTUAL_NODES else virtualNodes
      ensures Valid() && State() == RingState([], map[], map[], this.virtualNodes)
    {
      this.virtualNodes := if virtualNodes <= 0 then DEFAULT_VIRTUAL_NODES else virtualNodes;
      this.hash := hash;
      ring, nodeMap, nodes := [], map[], map[];
    }

    ghost function State(): RingState
      reads this
    {
      RingState(ring, nodeMap, nodes, virtualNodes)
    }

    ghost predicate Valid()
      reads this
    {
      Sorting.Sorted(ring, Below)
    }

    method AddNode(node: NodeInfo)
      requires Valid()
      modifies this
      ensures Valid() && State() == Placement.AddNode(old(State()), node, hash)
    {
      if node.id in nodes {
        return;
      }
      nodes := nodes[node.id := node];
      ghost var ps := Positions(node.id, virtualNodes, hash);
      for i := 0 to virtualNodes
        invariant nodes == old(nodes)[node.id := node]
        invariant ring == old(ring) + ps[..i] && nodeMap == Assign(old(nodeMap), ps[..i], node.id)
      {
        var h := hash(GenerateVirtualNodeKey(node.id, i));
        assert ps[..i + 1][..i] == ps[..i];
        ring := ring + [h];
        nodeMap := nodeMap[h := node.id];
      }
      assert ps[..virtualNodes] == ps;
      ring := Sorting.SliceStable(ring, Below);
      assert State() == Placement.AddNode(old(State()), node, hash);
      AddSorted(old(State()), node, hash);
    }

    method RemoveNode(nodeID: Uuid)
      requires Valid()
      modifies this
      ensures Valid() && State() == Placement.RemoveNode(old(State()), nodeID)
    {
      if nodeID !in nodes {
        return;
      }
      RemoveSorted(State(), nodeID);
      nodes := nodes - {nodeID};
      var newRing := [];
      for i := 0 to |ring|
        invariant nodes == old(nodes) - {nodeID} && ring == old(ring)
        invariant (newRing, nodeMap) == Sweep(ring[..i], old(nodeMap), nodeID)
      {
        assert ring[..i + 1][..i] == ring[..i];
        var h := ring[i];
        if OwnerOf(nodeMap, h) == nodeID {
          nodeMap := nodeMap - {h};
        } else {
          newRing := newRing + [h];
        }
      }
      assert ring[..|ring|] == ring;
      ring := newRing;
    }

    /** sort.Search for the first position at or after `h`. */
    method Search(h: Position) returns (idx: nat)
      requires Valid()
      ensures idx == Start(ring, h)
    {
      var i, j := 0, |ring|;
      while i < j
        invariant 0 <= i <= j <= |ring|
        invariant forall k | 0 <= k < i :: ring[k] < h
        invariant forall k | j <= k < |ring| :: h <= ring[k]
      {
        var m := (i + j) / 2;
        if ring[m] < h {
          assert forall k | 0 <= k < m :: !Below(ring[m], ring[k]);
          i := m + 1;
        } else {
          assert forall k | m < k < |ring| :: !Below(ring[k], ring[m]);
          j := m;
        }
      }
      idx := i;
      StartIs(ring, h, i);
    }

    /** The place `i` steps clockwise of `idx`. */
    method PlaceAfter(h: Position, idx: nat, i: nat) returns (pos: nat)
      requires i < |ring| && idx == if Start(ring, h) == |ring| then 0 else Start(ring, h)
      ensures pos < |ring| && ring[pos] == Clockwise(ring, h)[i]
    {
      pos := (idx + i) % |ring|;
      RotatedAt(ring, h, idx, i);
    }

    /** The scan of FindNodesForFile from place `idx` on. */
    method ScanFrom(h: Position, idx: nat, n: nat) returns (result: seq<NodeInfo>)
      requires idx == if Start(ring, h) == |ring| then 0 else Start(ring, h)
      ensures InfosOf(State(), FindIds(State(), h, n), result)
    {
      ghost var s := State();
      var seen: set<Uuid> := {};
      result := [];
      var i := 0;
      while i < |ring| && |result| < n
        invariant 0 <= i <= |ring| && |result| <= n
        invariant CollectedUpTo(s, h, i, seen, result)
      {
        var pos := PlaceAfter(h, idx, i);
        CollectNext(s, h, i, seen, result);
        var nodeID := OwnerOf(nodeMap, ring[pos]);
        if nodeID !in seen {
          seen := seen + {nodeID};
          if nodeID in nodes {
            result := result + [nodes[nodeID]];
          }
        }
        i := i + 1;
      }
      CollectedAll(s, h, n, i, seen, result);
    }

    method FindNodesForFile(fileID: Uuid, n: nat) returns (result: seq<NodeInfo>)
      requires Valid()
      ensures InfosOf(State(), FindIds(State(), hash(Text(fileID)), n), result)
    {
      var h := hash(Text(fileID));
      if |ring| == 0 {
        CollectedAll(State(), h, n, 0, {}, []);
        return [];
      }
      var idx := Search(h);
      if idx == |ring| {
        idx := 0;
      }
      result := ScanFrom(h, idx, n);
    }
  }
}
