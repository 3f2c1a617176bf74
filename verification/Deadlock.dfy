/** Detecting and breaking deadlocks (backend/dfs/node/node.go): the choice of a victim, and what the
    release of the victim does to the wait-for graph of the master. */
module Deadlock {
  import opened Basics
  import opened Uuids
  import opened CycleSearch
  import opened LockState

  /** The largest Go int, where the search for the lowest priority starts. */
  const MAX_INT := 0x7fff_ffff_ffff_ffff

  // ----- the victim -----

  predicate Known(n: NodeState, v: Uuid) {
    v == n.id || v in n.peers
  }

  function PriorityOf(n: NodeState, v: Uuid): int
    requires Known(n, v)
  {
    if v == n.id then n.priority else n.peers[v]
  }

  predicate Candidate(n: NodeState, v: Uuid) {
    Known(n, v) && PriorityOf(n, v) < MAX_INT
  }

  /** `v` is the first of the candidates of lowest priority on the whole path, or NIL without a candidate. */
  ghost predicate IsVictim(n: NodeState, path: seq<Uuid>, v: Uuid) {
    || (v == NIL && forall k | 0 <= k < |path| :: !Candidate(n, path[k]))
    || exists i :: FirstLowest(n, path, i) && path[i] == v
  }

  ghost predicate FirstLowest(n: NodeState, path: seq<Uuid>, i: int) {
    && 0 <= i < |path| && Candidate(n, path[i])
    && (forall k | 0 <= k < |path| && Candidate(n, path[k]) :: PriorityOf(n, path[i]) <= PriorityOf(n, path[k]))
    && (forall k | 0 <= k < i && Candidate(n, path[k]) :: PriorityOf(n, path[i]) < PriorityOf(n, path[k]))
  }

  /** The path determines the victim. */
  lemma OneVictim(n: NodeState, path: seq<Uuid>, v: Uuid, w: Uuid)
    requires IsVictim(n, path, v) && IsVictim(n, path, w)
    ensures v == w
  {
  }

  /** On a path with the master itself, at `i` first: it is the victim exactly when no other node of the path has a
      lower priority and none before it an equal one; otherwise the victim is a peer of no higher priority than
      its own, the lowest of the path. */
  lemma MasterVictimIff(n: NodeState, path: seq<Uuid>, v: Uuid, i: nat)
    requires IsVictim(n, path, v) && n.priority < MAX_INT && i < |path| && path[i] == n.id && n.id !in path[..i]
    ensures v == n.id <==>
            && (forall k | 0 <= k < |path| && path[k] != n.id && path[k] in n.peers :: n.priority <= n.peers[path[k]])
            && (forall k | 0 <= k < i && path[k] in n.peers :: n.priority < n.peers[path[k]])
    ensures v != n.id ==>
              && v in path && v in n.peers && n.peers[v] <= n.priority
              && forall k | 0 <= k < |path| && path[k] != n.id && path[k] in n.peers :: n.peers[v] <= n.peers[path[k]]
  {
    assert Candidate(n, path[i]);
    var m :| FirstLowest(n, path, m) && path[m] == v;
    forall k | 0 <= k < |path| && path[k] != n.id && path[k] in n.peers
      ensures PriorityOf(n, v) <= n.peers[path[k]]
    {
      assert Candidate(n, path[k]) <==> n.peers[path[k]] < MAX_INT;
    }
    forall k | 0 <= k < i
      ensures path[k] != n.id
    {
      assert path[k] == path[..i][k];
    }
    if v == n.id {
      assert m >= i;
      assert forall k | 0 <= k < i && path[k] in n.peers :: Candidate(n, path[k]) <==> n.peers[path[k]] < MAX_INT;
    } else if m > i {
      assert n.priority > n.peers[v];
    }
  }

  // ----- what a release removes -----

  /** The places of `path` from the first occurrence of its last node on. */
  function CyclePart(path: seq<Uuid>): (c: seq<Uuid>)
    requires path != []
    ensures c != [] && c[0] == c[|c| - 1] == path[|path| - 1]
  {
    if path[0] == path[|path| - 1] then path else CyclePart(path[1..])
  }

  lemma {:induction false} CyclePartIsCycle(g: Graph, path: seq<Uuid>)
    requires ClosesCycle(g, path)
    ensures IsCycle(g, CyclePart(path))
  {
    if path[0] != path[|path| - 1] {
      var rest := path[1..];
      forall i | 0 <= i < |rest| - 1
        ensures Edge(g, rest[i], rest[i + 1])
      {
        assert Edge(g, path[i + 1], path[i + 2]);
      }
      var k :| 0 <= k < |path| - 1 && path[..|path| - 1][k] == path[|path| - 1];
      assert rest[..|rest| - 1][k - 1] == rest[|rest| - 1];
      assert rest[..|rest| - 1] == path[..|path| - 1][1..];
      CyclePartIsCycle(g, rest);
    }
  }

  /** Handling a release of `v` breaks exactly the cycles through `v`. */
  lemma CycleSurvivesIff(g: Graph, c: seq<Uuid>, v: Uuid)
    requires IsCycle(g, c)
    ensures IsCycle(RemoveHolder(g, v), c) <==> v !in c
  {
    var g' := RemoveHolder(g, v);
    if v in c {
      var k :| 0 <= k < |c| && c[k] == v;
      var m := if k == 0 then |c| - 1 else k;
      assert !Edge(g', c[m - 1], c[m - 1 + 1]);
    } else {
      forall i | 0 <= i < |c| - 1
        ensures Edge(g', c[i], c[i + 1])
      {
        assert Edge(g, c[i], c[i + 1]);
      }
    }
  }

  /** It adds no cycle, and `v` is on none. */
  lemma ReleaseAddsNoCycle(n: NodeState, from: Uuid, r: string, c: seq<Uuid>)
    requires IsCycle(HandleLockRelease(n, from, r).waitForGraph, c)
    ensures IsCycle(n.waitForGraph, c) && from !in c
  {
    var g, g' := n.waitForGraph, RemoveHolder(n.waitForGraph, from);
    forall i | 0 <= i < |c| - 1
      ensures Edge(g, c[i], c[i + 1])
    {
      assert Edge(g', c[i], c[i + 1]);
    }
    CycleSurvivesIff(g, c, from);
  }

  // ----- when the victim is on the cycle -----

  /** The length of the lead-in of `path`. */
  function LeadIn(path: seq<Uuid>): (l: nat)
    requires path != []
    ensures l <= |path|
  {
    CyclePartIsSuffix(path);
    |path| - |CyclePart(path)|
  }

  lemma {:induction false} CyclePartIsSuffix(path: seq<Uuid>)
    requires path != []
    ensures |CyclePart(path)| <= |path| && CyclePart(path) == path[|path| - |CyclePart(path)|..]
    ensures forall j | 0 <= j < |path| - |CyclePart(path)| :: path[j] != path[|path| - 1]
  {
    if path[0] != path[|path| - 1] {
      CyclePartIsSuffix(path[1..]);
    }
  }

  /** No node of the lead-in is on the cycle part. */
  lemma LeadInOffCycle(g: Graph, path: seq<Uuid>, j: nat)
    requires ClosesCycle(g, path) && j < LeadIn(path)
    ensures path[j] !in CyclePart(path)
  {
    CyclePartIsSuffix(path);
    var front := path[..|path| - 1];
    assert forall k | 0 <= k < |front| :: front[k] == path[k];
  }

  /** Some candidate on the cycle part has a lower priority than every candidate of the lead-in. */
  ghost predicate LowestOnCycle(n: NodeState, path: seq<Uuid>)
    requires path != []
  {
    exists k :: LeadIn(path) <= k < |path| && BelowLeadIn(n, path, k)
  }

  ghost predicate BelowLeadIn(n: NodeState, path: seq<Uuid>, k: int)
    requires path != []
  {
    && 0 <= k < |path| && Candidate(n, path[k])
    && forall j | 0 <= j < LeadIn(path) && Candidate(n, path[j]) :: PriorityOf(n, path[k]) < PriorityOf(n, path[j])
  }

  /** `v` has the lowest priority of the candidates in `c`. */
  ghost predicate LowestOf(n: NodeState, c: seq<Uuid>, v: Uuid) {
    Candidate(n, v) && forall u | u in c && Candidate(n, u) :: PriorityOf(n, v) <= PriorityOf(n, u)
  }

  lemma CyclePartMembers(path: seq<Uuid>, u: Uuid)
    requires path != [] && u in CyclePart(path)
    ensures u in path
  {
    CyclePartIsSuffix(path);
    InSuffix(path, |path| - |CyclePart(path)|, u);
  }

  lemma InSuffix(s: seq<Uuid>, l: nat, u: Uuid)
    requires l <= |s| && u in s[l..]
    ensures u in s
  {
  }

  lemma AtSuffix(s: seq<Uuid>, l: nat, i: nat)
    requires l <= i < |s|
    ensures s[i] in s[l..]
  {
    assert s[l..][i - l] == s[i];
  }

  /** The first candidate of lowest priority is on the cycle part exactly if it comes after the lead-in. */
  lemma FirstLowestOnCycle(n: NodeState, g: Graph, path: seq<Uuid>, i: int)
    requires ClosesCycle(g, path) && FirstLowest(n, path, i)
    ensures LowestOnCycle(n, path) <==> LeadIn(path) <= i
    ensures path[i] in CyclePart(path) <==> LeadIn(path) <= i
  {
    var l := LeadIn(path);
    if l <= i {
      CyclePartIsSuffix(path);
      assert BelowLeadIn(n, path, i);
      AtSuffix(path, l, i);
    } else {
      LeadInOffCycle(g, path, i);
      forall k | l <= k < |path|
        ensures !BelowLeadIn(n, path, k)
      {
        assert Candidate(n, path[i]);
      }
    }
  }

  lemma FirstLowestOf(n: NodeState, path: seq<Uuid>, i: int)
    requires FirstLowest(n, path, i)
    ensures LowestOf(n, CyclePart(path), path[i])
  {
    forall u | u in CyclePart(path) && Candidate(n, u)
      ensures PriorityOf(n, path[i]) <= PriorityOf(n, u)
    {
      CyclePartMembers(path, u);
    }
  }

  /** The loop over the whole path picks a node of the cycle, and then one of lowest priority on it, exactly
      when the lead-in holds no candidate of a priority as low. */
  lemma VictimOnCycleIff(n: NodeState, g: Graph, path: seq<Uuid>, v: Uuid)
    requires ClosesCycle(g, path) && IsVictim(n, path, v)
    ensures LowestOnCycle(n, path) <==> Candidate(n, v) && v in CyclePart(path)
    ensures LowestOnCycle(n, path) ==> LowestOf(n, CyclePart(path), v)
  {
    if i :| FirstLowest(n, path, i) && path[i] == v {
      FirstLowestOnCycle(n, g, path, i);
      FirstLowestOf(n, path, i);
    } else if v in CyclePart(path) {
      CyclePartMembers(path, v);
    }
  }

  /** Unless the nil id is a node, a victim on the cycle part is a candidate. */
  lemma VictimOnCycle(n: NodeState, g: Graph, path: seq<Uuid>, v: Uuid)
    requires ClosesCycle(g, path) && IsVictim(n, path, v) && NIL !in path
    ensures LowestOnCycle(n, path) <==> v in CyclePart(path)
    ensures LowestOnCycle(n, path) ==> Candidate(n, v)
  {
    CyclePartIsSuffix(path);
    VictimOnCycleIff(n, g, path, v);
    assert v in CyclePart(path) ==> v in path;
  }

  /** The release of the victim breaks the cycle that was found under that condition and no other. */
  lemma VictimBreaksCycleIff(n: NodeState, path: seq<Uuid>, v: Uuid, r: string)
    requires ClosesCycle(n.waitForGraph, path) && IsVictim(n, path, v) && NIL !in path
    ensures !IsCycle(HandleLockRelease(n, v, r).waitForGraph, CyclePart(path)) <==> LowestOnCycle(n, path)
  {
    CyclePartIsCycle(n.waitForGraph, path);
    CycleSurvivesIff(n.waitForGraph, CyclePart(path), v);
    VictimOnCycle(n, n.waitForGraph, path, v);
  }

  lemma LeadInPath(g: Graph, a: Uuid, b: Uuid, c: Uuid)
    requires a != b && b != c && a != c && g == map[a := {b}, b := {c}, c := {b}]
    ensures ClosesCycle(g, [a, b, c, b]) && CyclePart([a, b, c, b]) == [b, c, b]
  {
    var path := [a, b, c, b];
    assert path[..|path| - 1] == [a, b, c] && [a, b, c][1] == b;
    assert path[1..] == [b, c, b];
  }

  /** `a` waits for `b`, which waits for `c` and `c` for `b`; `a` has the lowest priority. */
  lemma LeadInVictim(n: NodeState, a: Uuid, b: Uuid, c: Uuid, r: string)
    requires a != b && b != c && a != c && n.id !in {a, b, c}
    requires n.peers == map[a := 1, b := 2, c := 3] && n.waitForGraph == map[a := {b}, b := {c}, c := {b}]
    ensures ClosesCycle(n.waitForGraph, [a, b, c, b]) && IsVictim(n, [a, b, c, b], a)
    ensures Cyclic(HandleLockRelease(n, a, r).waitForGraph)
  {
    var path := [a, b, c, b];
    LeadInPath(n.waitForGraph, a, b, c);
    assert FirstLowest(n, path, 0);
    CyclePartIsCycle(n.waitForGraph, path);
    CycleSurvivesIff(n.waitForGraph, CyclePart(path), a);
  }

  // ----- rounds of detection, abort and release -----

  function Released(g: Graph, vs: seq<Uuid>): Graph {
    if vs == [] then g else Released(RemoveHolder(g, vs[0]), vs[1..])
  }

  /** In each round HasCycle finds some path and a node on its cycle part releases. */
  ghost predicate Rounds(g: Graph, vs: seq<Uuid>) {
    vs == [] || (OnFoundCycle(g, vs[0]) && Rounds(RemoveHolder(g, vs[0]), vs[1..]))
  }

  ghost predicate OnFoundCycle(g: Graph, v: Uuid) {
    exists path :: ClosesCycle(g, path) && v in CyclePart(path)
  }

  /** The nodes that wait and are waited for. */
  ghost function Waited(g: Graph): set<Uuid> {
    set v | v in g && exists w :: Edge(g, w, v)
  }

  lemma RoundShrinks(g: Graph, v: Uuid)
    requires OnFoundCycle(g, v)
    ensures Waited(RemoveHolder(g, v)) <= Waited(g) - {v} && v in Waited(g)
  {
    var path :| ClosesCycle(g, path) && v in CyclePart(path);
    var c := CyclePart(path);
    CyclePartIsCycle(g, path);
    var k :| 0 <= k < |c| && c[k] == v;
    var m, l := if k == 0 then |c| - 1 else k, if k == |c| - 1 then 0 else k;
    assert Edge(g, c[m - 1], c[m - 1 + 1]) && Edge(g, c[l], c[l + 1]);
    forall u | u in Waited(RemoveHolder(g, v))
      ensures u in Waited(g) - {v}
    {
      var w :| Edge(RemoveHolder(g, v), w, u);
      assert Edge(g, w, u);
    }
  }

  lemma {:induction false} RoundsShrink(g: Graph, vs: seq<Uuid>)
    requires Rounds(g, vs)
    ensures |vs| + |Waited(Released(g, vs))| <= |Waited(g)|
    decreases |vs|
  {
    if vs != [] {
      RoundShrinks(g, vs[0]);
      SubsetSize(Waited(RemoveHolder(g, vs[0])), Waited(g) - {vs[0]});
      RoundsShrink(RemoveHolder(g, vs[0]), vs[1..]);
    }
  }

  /** Without new requests there are at most as many rounds as nodes, and once no further round is
      possible the graph is acyclic. */
  lemma RoundsEndAcyclic(g: Graph, vs: seq<Uuid>)
    requires Rounds(g, vs)
    ensures |vs| <= |g|
    ensures |vs| == |g| ==> !Cyclic(Released(g, vs))
    ensures !Cyclic(Released(g, vs)) <==> forall v :: !OnFoundCycle(Released(g, vs), v)
  {
    var g' := Released(g, vs);
    RoundsShrink(g, vs);
    SubsetSize(Waited(g), g.Keys);
    if Cyclic(g') {
      var path := SomeCycle(g');
      assert CyclePart(path)[0] in CyclePart(path) && OnFoundCycle(g', CyclePart(path)[0]);
      RoundShrinks(g', CyclePart(path)[0]);
    }
    forall v | OnFoundCycle(g', v)
      ensures Cyclic(g')
    {
      var path :| ClosesCycle(g', path) && v in CyclePart(path);
      ClosesCycleIsCyclic(g', path);
    }
  }

  /** A cyclic graph has a path that HasCycle may return. */
  lemma SomeCycle(g: Graph) returns (path: seq<Uuid>)
    requires Cyclic(g)
    ensures ClosesCycle(g, path)
  {
    var c :| IsCycle(g, c);
    path := Shortened(g, c);
  }

  lemma {:induction false} Shortened(g: Graph, c: seq<Uuid>) returns (path: seq<Uuid>)
    requires IsCycle(g, c)
    ensures ClosesCycle(g, path)
    decreases |c|
  {
    var front := c[..|c| - 1];
    if NoRepeats(front) {
      path := c;
      assert front[0] == c[|c| - 1];
    } else {
      var i, j :| 0 <= i < j < |front| && front[i] == front[j];
      var inner := c[i..j + 1];
      forall k | 0 <= k < |inner| - 1
        ensures Edge(g, inner[k], inner[k + 1])
      {
        assert Edge(g, c[i + k], c[i + k + 1]);
      }
      path := Shortened(g, inner);
    }
  }
}
