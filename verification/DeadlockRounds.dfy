/** Round after round of deadlock detection at the master: each finds a cycle, picks a victim and lets it
    release (backend/dfs/node/node.go). When this comes to an end, and when it never does. */
module DeadlockRounds {
  import opened Uuids
  import opened Lamport
  import opened LockState
  import opened LockSystem
  import opened CycleSearch
  import opened Deadlock
  import opened WaitFor

  /** The path the search found, the state of the victim, and the releases of it. */
  datatype Round = Round(path: seq<Uuid>, victim: NodeState, rs: seq<string>, orders: seq<seq<Uuid>>)

  ghost predicate RoundOf(m: NodeState, d: Round) {
    && ClosesCycle(m.waitForGraph, d.path) && IsVictim(m, d.path, d.victim.id) && NIL !in d.path
    && Enumerates(d.rs, OwnResources(d.victim)) && |d.orders| == |d.rs|
  }

  function AfterRound(m: NodeState, d: Round): NodeState
    requires |d.orders| == |d.rs|
  {
    AfterAbort(m, d.victim, d.rs, d.orders)
  }

  /** The victim is on the cycle, is another node than the master, and has something to release. */
  ghost predicate Effective(m: NodeState, d: Round)
    requires d.path != []
  {
    LowestOnCycle(m, d.path) && d.victim.id != m.id && OwnResources(d.victim) != {}
  }

  ghost predicate EffectiveRounds(m: NodeState, ds: seq<Round>)
    decreases |ds|
  {
    ds == [] || (RoundOf(m, ds[0]) && Effective(m, ds[0]) && EffectiveRounds(AfterRound(m, ds[0]), ds[1..]))
  }

  ghost function AfterRounds(m: NodeState, ds: seq<Round>): NodeState
    requires EffectiveRounds(m, ds)
    decreases |ds|
  {
    if ds == [] then m else AfterRounds(AfterRound(m, ds[0]), ds[1..])
  }

  // ----- one round -----

  lemma {:induction false} HandleReleasesKeep(m: NodeState, v: Uuid, rs: seq<string>)
    ensures HandleReleases(m, v, rs).id == m.id && HandleReleases(m, v, rs).peers == m.peers
    ensures HandleReleases(m, v, rs).priority == m.priority
  {
    if rs != [] {
      HandleReleasesKeep(m, v, rs[..|rs| - 1]);
    }
  }

  lemma {:induction false} BroadcastKeeps(n: NodeState, body: MessageBody, order: seq<Uuid>)
    ensures var n' := Broadcast(n, body, order).node;
            n'.id == n.id && n'.peers == n.peers && n'.priority == n.priority
  {
    if order != [] {
      BroadcastKeeps(n, body, order[..|order| - 1]);
    }
  }

  lemma {:induction false} ReleaseAllKeeps(n: NodeState, rs: seq<string>, orders: seq<seq<Uuid>>)
    requires |orders| == |rs|
    ensures var n' := ReleaseAll(n, rs, orders).node;
            n'.id == n.id && n'.peers == n.peers && n'.priority == n.priority
  {
    if rs != [] {
      var k := |rs| - 1;
      ReleaseAllKeeps(n, rs[..k], orders[..k]);
      var n1 := WithoutFirst(ReleaseAll(n, rs[..k], orders[..k]).node, rs[k], n.id);
      BroadcastKeeps(n1.(pendingAcks := n1.pendingAcks - {rs[k]}), ReleaseMsg(rs[k]), orders[k]);
    }
  }

  /** A round removes the edges to a peer that has something to release, and nothing else. */
  lemma RoundGraph(m: NodeState, d: Round)
    requires RoundOf(m, d)
    ensures var m' := AfterRound(m, d); var v := d.victim.id;
            && m'.id == m.id && m'.peers == m.peers && m'.priority == m.priority
            && m'.waitForGraph == if v != m.id && v in m.peers && OwnResources(d.victim) != {}
                                  then RemoveHolder(m.waitForGraph, v) else m.waitForGraph
  {
    HandleReleasesKeep(m, d.victim.id, d.rs);
    ReleasesRemoveHolder(m, d.victim.id, d.rs);
    ReleaseAllKeeps(m, d.rs, d.orders);
    ReleaseAllView(m, d.rs, d.orders);
    if d.rs != [] {
      assert d.rs[0] in OwnResources(d.victim);
    }
  }

  /** The same candidates, and so the same victim. */
  lemma SameVictim(m: NodeState, m': NodeState, path: seq<Uuid>, v: Uuid)
    requires m'.id == m.id && m'.peers == m.peers && m'.priority == m.priority && IsVictim(m, path, v)
    ensures IsVictim(m', path, v)
  {
    assert forall u :: Candidate(m', u) <==> Candidate(m, u);
    if i :| FirstLowest(m, path, i) && path[i] == v {
      assert FirstLowest(m', path, i);
    }
  }

  // ----- many rounds -----

  function Victims(ds: seq<Round>): seq<Uuid> {
    if ds == [] then [] else [ds[0].victim.id] + Victims(ds[1..])
  }

  lemma EffectiveOnCycle(m: NodeState, d: Round)
    requires RoundOf(m, d) && Effective(m, d)
    ensures OnFoundCycle(m.waitForGraph, d.victim.id)
    ensures AfterRound(m, d).waitForGraph == RemoveHolder(m.waitForGraph, d.victim.id)
  {
    VictimOnCycle(m, m.waitForGraph, d.path, d.victim.id);
    RoundGraph(m, d);
  }

  lemma {:induction false} EffectiveAreRounds(m: NodeState, ds: seq<Round>)
    requires EffectiveRounds(m, ds)
    ensures Rounds(m.waitForGraph, Victims(ds)) && |Victims(ds)| == |ds|
    ensures AfterRounds(m, ds).waitForGraph == Released(m.waitForGraph, Victims(ds))
    decreases |ds|
  {
    if ds != [] {
      EffectiveOnCycle(m, ds[0]);
      EffectiveAreRounds(AfterRound(m, ds[0]), ds[1..]);
      assert Victims(ds)[0] == ds[0].victim.id && Victims(ds)[1..] == Victims(ds[1..]);
    }
  }

  /** Without new requests, effective rounds come to an end: there are at most as many as nodes that wait, and
      after that many the master's graph is acyclic. */
  lemma EffectiveRoundsEnd(m: NodeState, ds: seq<Round>)
    requires EffectiveRounds(m, ds)
    ensures |ds| <= |m.waitForGraph|
    ensures |ds| == |m.waitForGraph| ==> !Cyclic(AfterRounds(m, ds).waitForGraph)
  {
    EffectiveAreRounds(m, ds);
    RoundsEndAcyclic(m.waitForGraph, Victims(ds));
  }

  /** Nobody waits for `v`. */
  ghost predicate Unawaited(g: Graph, v: Uuid) {
    forall w :: !Edge(g, w, v)
  }

  lemma UnawaitedRemoved(g: Graph, v: Uuid)
    requires Unawaited(g, v)
    ensures RemoveHolder(g, v) == g
  {
    forall w | w in g
      ensures g[w] - {v} == g[w]
    {
      assert !Edge(g, w, v);
    }
  }

  /** A round leaves the graph as it is exactly when the victim is the master or no peer, has nothing to
      release, or nobody waits for it. Then the next round may find the same path and picks the same victim,
      round after round. */
  lemma RoundRepeatsIff(m: NodeState, d: Round)
    requires RoundOf(m, d)
    ensures AfterRound(m, d).waitForGraph == m.waitForGraph
            <==> d.victim.id == m.id || d.victim.id !in m.peers || OwnResources(d.victim) == {}
                 || Unawaited(m.waitForGraph, d.victim.id)
    ensures AfterRound(m, d).waitForGraph == m.waitForGraph ==>
              && ClosesCycle(AfterRound(m, d).waitForGraph, d.path)
              && forall u :: IsVictim(AfterRound(m, d), d.path, u) <==> u == d.victim.id
  {
    var v := d.victim.id;
    RoundGraph(m, d);
    SameVictim(m, AfterRound(m, d), d.path, v);
    forall u | IsVictim(AfterRound(m, d), d.path, u)
      ensures u == v
    {
      OneVictim(AfterRound(m, d), d.path, u, v);
    }
    if Unawaited(m.waitForGraph, v) {
      UnawaitedRemoved(m.waitForGraph, v);
    } else {
      var w :| Edge(m.waitForGraph, w, v);
      assert !Edge(RemoveHolder(m.waitForGraph, v), w, v);
    }
  }

  // ----- a history that ends there -----

  function HandleAll(n: NodeState, ps: seq<Packet>): NodeState {
    if ps == [] then n else Handle(HandleAll(n, ps[..|ps| - 1]), ps[|ps| - 1]).node
  }

  lemma HandleKeeps(n: NodeState, p: Packet)
    ensures Handle(n, p).node.id == n.id && Handle(n, p).node.peers == n.peers
  {
    var n1 := Received(n, p.logicalTime);
    if p.body.RequestMsg? {
      RequestKeeps(n1, p.from, p.body.request);
    }
  }

  lemma RequestKeeps(n: NodeState, from: Uuid, req: LockRequest)
    ensures var n' := HandleLockRequest(n, from, req).node; n'.id == n.id && n'.peers == n.peers
  {
  }

  lemma {:induction false} HandleAllView(n: NodeState, ps: seq<Packet>)
    ensures ViewOf(HandleAll(n, ps)) == WatchAll(ViewOf(n), ps)
    ensures HandleAll(n, ps).id == n.id && HandleAll(n, ps).peers == n.peers
  {
    if ps != [] {
      var before, p := HandleAll(n, ps[..|ps| - 1]), ps[|ps| - 1];
      HandleAllView(n, ps[..|ps| - 1]);
      HandleView(before, p);
      HandleKeeps(before, p);
    }
  }

  lemma FreshView(n: NodeState, ps: seq<Packet>)
    requires n.lockHolders == map[] && n.waitForGraph == map[]
    ensures HandleAll(n, ps).waitForGraph == WatchAll(View(map[], map[]), ps).graph
    ensures HandleAll(n, ps).id == n.id && HandleAll(n, ps).peers == n.peers
  {
    HandleAllView(n, ps);
    assert ViewOf(n) == View(map[], map[]);
  }

  function Asks(w: Uuid, r: string): Packet {
    Packet(w, RequestMsg(LockRequest(r, w, 1, 0)), 2)
  }

  function Announces(h: Uuid, r: string): Packet {
    Packet(h, AcquiredMsg(r), 1)
  }

  /** `b` holds `r` and `c` holds `q`; then `a` asks for `r`, `b` for `q` and `c` for `r`. */
  function History(a: Uuid, b: Uuid, c: Uuid, r: string, q: string): seq<Packet> {
    [Announces(b, r), Announces(c, q), Asks(a, r), Asks(b, q), Asks(c, r)]
  }

  lemma WatchFive(v: View, p0: Packet, p1: Packet, p2: Packet, p3: Packet, p4: Packet)
    ensures WatchAll(v, [p0, p1, p2, p3, p4]) == Watch(Watch(Watch(Watch(Watch(v, p0), p1), p2), p3), p4)
  {
    var ps := [p0, p1, p2, p3, p4];
    assert ps[..4][..3] == ps[..3] && ps[..3][..2] == ps[..2] && ps[..2][..1] == ps[..1] && ps[..1][..0] == [];
    assert WatchAll(v, ps[..1]) == Watch(v, p0);
    assert WatchAll(v, ps[..2]) == Watch(Watch(v, p0), p1);
    assert WatchAll(v, ps[..3]) == Watch(Watch(Watch(v, p0), p1), p2);
    assert WatchAll(v, ps[..4]) == Watch(Watch(Watch(Watch(v, p0), p1), p2), p3);
  }

  lemma FirstEdge(v: View, w: Uuid, r: string)
    requires r in v.holders && v.holders[r] != w && w !in v.graph
    ensures Watch(v, Asks(w, r)) == View(v.holders, v.graph[w := {v.holders[r]}])
  {
    assert {} + {v.holders[r]} == {v.holders[r]};
  }

  lemma HistoryView(a: Uuid, b: Uuid, c: Uuid, r: string, q: string)
    requires a != b && b != c && a != c && r != q
    ensures WatchAll(View(map[], map[]), History(a, b, c, r, q)).graph == map[a := {b}, b := {c}, c := {b}]
  {
    var holders := map[r := b, q := c];
    var v0 := View(map[], map[]);
    var v2 := Watch(Watch(v0, Announces(b, r)), Announces(c, q));
    assert v2 == View(holders, map[]);
    FirstEdge(v2, a, r);
    var v3 := Watch(v2, Asks(a, r));
    FirstEdge(v3, b, q);
    var v4 := Watch(v3, Asks(b, q));
    FirstEdge(v4, c, r);
    WatchFive(v0, Announces(b, r), Announces(c, q), Asks(a, r), Asks(b, q), Asks(c, r));
  }

  lemma LeadInRepeats(m: NodeState, a: Uuid, b: Uuid, c: Uuid, d: Round)
    requires a != b && b != c && a != c && m.id !in {a, b, c} && NIL !in {a, b, c}
    requires m.peers == map[a := 1, b := 2, c := 3] && m.waitForGraph == map[a := {b}, b := {c}, c := {b}]
    requires d.path == [a, b, c, b] && d.victim.id == a
    requires Enumerates(d.rs, OwnResources(d.victim)) && |d.orders| == |d.rs|
    ensures RoundOf(m, d) && AfterRound(m, d).waitForGraph == m.waitForGraph && Cyclic(m.waitForGraph)
  {
    LeadInVictim(m, a, b, c, "");
    ClosesCycleIsCyclic(m.waitForGraph, d.path);
    assert Unawaited(m.waitForGraph, a);
    assert NIL !in d.path;
    RoundRepeatsIff(m, d);
  }

  /** From a fresh master these messages make the graph whose victim is on the lead-in: `a`, for whom nobody
      waits, is picked in every round, and the deadlock of `b` and `c` stays. */
  lemma LeadInStays(n: NodeState, a: Uuid, b: Uuid, c: Uuid, r: string, q: string, d: Round)
    requires a != b && b != c && a != c && n.id !in {a, b, c} && r != q && NIL !in {a, b, c}
    requires n.peers == map[a := 1, b := 2, c := 3] && n.lockHolders == map[] && n.waitForGraph == map[]
    requires d.path == [a, b, c, b] && d.victim.id == a
    requires Enumerates(d.rs, OwnResources(d.victim)) && |d.orders| == |d.rs|
    ensures var m := HandleAll(n, History(a, b, c, r, q));
            RoundOf(m, d) && AfterRound(m, d).waitForGraph == m.waitForGraph && Cyclic(m.waitForGraph)
  {
    var ps := History(a, b, c, r, q);
    FreshView(n, ps);
    HistoryView(a, b, c, r, q);
    LeadInRepeats(HandleAll(n, ps), a, b, c, d);
  }
}
