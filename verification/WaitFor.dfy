/** What a node's wait-for graph records, over every run of the lock protocol: the handlers of requests,
    acquired and release messages maintain it (backend/dfs/node/node.go), nothing else touches it. */
module WaitFor {
  import opened Uuids
  import opened Lamport
  import opened LockState
  import opened LockSystem
  import opened CycleSearch
  import opened Deadlock

  /** The holders a node has recorded and its wait-for graph. */
  datatype View = View(holders: map<string, Uuid>, graph: Graph)

  function ViewOf(n: NodeState): View {
    View(n.lockHolders, n.waitForGraph)
  }

  // ----- what the messages handled so far say -----

  ghost predicate Touches(p: Packet, r: string) {
    p.body == AcquiredMsg(r) || p.body == ReleaseMsg(r)
  }

  ghost predicate HoldsSince(ps: seq<Packet>, k: int, r: string, h: Uuid) {
    && 0 <= k < |ps| && ps[k].body == AcquiredMsg(r) && ps[k].from == h
    && forall m | k < m < |ps| :: !Touches(ps[m], r)
  }

  /** `h` is the recorded holder of `r`: it announced so and nobody announced or released `r` since. */
  ghost predicate Holds(ps: seq<Packet>, r: string, h: Uuid) {
    exists k :: HoldsSince(ps, k, r, h)
  }

  ghost predicate WaitsSince(ps: seq<Packet>, k: int, w: Uuid, h: Uuid) {
    && 0 <= k < |ps| && ps[k].body.RequestMsg? && ps[k].body.request.nodeID == w && w != h
    && Holds(ps[..k], ps[k].body.request.resourceID, h)
    && forall m | k < m < |ps| :: !(ps[m].body.ReleaseMsg? && ps[m].from == h)
  }

  /** A request of `w` was handled while `h`, not `w`, was the recorded holder, and no release from `h` since. */
  ghost predicate Waits(ps: seq<Packet>, w: Uuid, h: Uuid) {
    exists k :: WaitsSince(ps, k, w, h)
  }

  // ----- one message -----

  function Watch(v: View, p: Packet): View {
    match p.body
    case RequestMsg(req) =>
      if req.resourceID in v.holders && v.holders[req.resourceID] != req.nodeID then
        v.(graph := AddEdge(v.graph, req.nodeID, v.holders[req.resourceID]))
      else v
    case AcquiredMsg(r) => v.(holders := v.holders[r := p.from])
    case ReleaseMsg(r) => View(v.holders - {r}, RemoveHolder(v.graph, p.from))
    case _ => v
  }

  function WatchAll(v: View, ps: seq<Packet>): View {
    if ps == [] then v else Watch(WatchAll(v, ps[..|ps| - 1]), ps[|ps| - 1])
  }

  lemma HoldsStep(ps: seq<Packet>, p: Packet, r: string, h: Uuid)
    ensures Holds(ps + [p], r, h) <==> if Touches(p, r) then p.body == AcquiredMsg(r) && p.from == h else Holds(ps, r, h)
  {
    var qs := ps + [p];
    assert qs[|ps|] == p;
    if Touches(p, r) {
      if p.body == AcquiredMsg(r) && p.from == h {
        assert HoldsSince(qs, |ps|, r, h);
      }
    } else {
      if k :| HoldsSince(qs, k, r, h) {
        assert forall m | k < m < |ps| :: qs[m] == ps[m];
        assert HoldsSince(ps, k, r, h);
      }
      if k :| HoldsSince(ps, k, r, h) {
        assert HoldsSince(qs, k, r, h);
      }
    }
  }

  lemma WaitsStep(ps: seq<Packet>, p: Packet, w: Uuid, h: Uuid)
    ensures Waits(ps + [p], w, h) <==>
            || (Waits(ps, w, h) && !(p.body.ReleaseMsg? && p.from == h))
            || (p.body.RequestMsg? && p.body.request.nodeID == w && w != h && Holds(ps, p.body.request.resourceID, h))
  {
    var qs := ps + [p];
    assert qs[..|ps|] == ps && qs[|ps|] == p;
    if k :| WaitsSince(qs, k, w, h) {
      if k < |ps| {
        assert qs[..k] == ps[..k];
        assert forall m | k < m < |ps| :: qs[m] == ps[m];
        assert WaitsSince(ps, k, w, h);
      }
    }
    if k :| WaitsSince(ps, k, w, h) {
      if !(p.body.ReleaseMsg? && p.from == h) {
        assert qs[..k] == ps[..k];
        assert WaitsSince(qs, k, w, h);
      }
    }
    if p.body.RequestMsg? && p.body.request.nodeID == w && w != h && Holds(ps, p.body.request.resourceID, h) {
      assert WaitsSince(qs, |ps|, w, h);
    }
  }

  /** The recorded holder and the edges are what the handled messages say. */
  lemma {:induction false} WatchAllHistory(ps: seq<Packet>, r: string, w: Uuid, h: Uuid)
    ensures var v := WatchAll(View(map[], map[]), ps);
            && (r in v.holders && v.holders[r] == h <==> Holds(ps, r, h))
            && (Edge(v.graph, w, h) <==> Waits(ps, w, h))
  {
    if ps != [] {
      var front, p := ps[..|ps| - 1], ps[|ps| - 1];
      assert ps == front + [p];
      WatchAllHistory(front, r, w, h);
      HoldsStep(front, p, r, h);
      WaitsStep(front, p, w, h);
      if p.body.RequestMsg? {
        WatchAllHistory(front, p.body.request.resourceID, w, h);
      }
    }
  }

  // ----- every step of a node -----

  ghost predicate SameView(n: NodeState, n': NodeState) {
    ViewOf(n') == ViewOf(n)
  }

  lemma {:induction false} BroadcastView(n: NodeState, body: MessageBody, order: seq<Uuid>)
    ensures SameView(n, Broadcast(n, body, order).node)
  {
    if order != [] {
      BroadcastView(n, body, order[..|order| - 1]);
    }
  }

  lemma ReleaseLockView(n: NodeState, r: string, order: seq<Uuid>)
    ensures SameView(n, LockState.ReleaseLock(n, r, order).node)
  {
    var n1 := WithoutFirst(n, r, n.id);
    BroadcastView(n1.(pendingAcks := n1.pendingAcks - {r}), ReleaseMsg(r), order);
  }

  /** A node that aborts keeps its own wait-for graph: a master that picks itself will find the cycle again. */
  lemma {:induction false} ReleaseAllView(n: NodeState, rs: seq<string>, orders: seq<seq<Uuid>>)
    requires |orders| == |rs|
    ensures SameView(n, ReleaseAll(n, rs, orders).node)
  {
    if rs != [] {
      var k := |rs| - 1;
      ReleaseAllView(n, rs[..k], orders[..k]);
      ReleaseLockView(ReleaseAll(n, rs[..k], orders[..k]).node, rs[k], orders[k]);
    }
  }

  lemma {:induction false} DropView(n: NodeState, r: string, now: int, limit: Limit)
    ensures SameView(n, DropExpiredHeads(n, r, now, limit))
    decreases |Queue(n, r)|
  {
    var q := Queue(n, r);
    if q != [] && Expired(q[0], now, limit) {
      var acks := if q[0].nodeID == n.id then n.pendingAcks - {r} else n.pendingAcks;
      DropView(n.(lockQueue := n.lockQueue[r := q[1..]], pendingAcks := acks), r, now, limit);
    }
  }

  lemma {:induction false} SweepView(n: NodeState, rs: seq<string>, now: int, limit: Limit)
    ensures SameView(n, SweepQueues(n, rs, now, limit).node)
  {
    if rs != [] {
      SweepView(n, rs[..|rs| - 1], now, limit);
    }
  }

  lemma {:induction false} BroadcastReleasesView(n: NodeState, rs: seq<string>, orders: seq<seq<Uuid>>)
    requires |orders| == |rs|
    ensures SameView(n, BroadcastReleases(n, rs, orders).node)
  {
    if rs != [] {
      var k := |rs| - 1;
      BroadcastReleasesView(n, rs[..k], orders[..k]);
      BroadcastView(BroadcastReleases(n, rs[..k], orders[..k]).node, ReleaseMsg(rs[k]), orders[k]);
    }
  }

  lemma RequestView(n: NodeState, from: Uuid, req: LockRequest)
    ensures ViewOf(HandleLockRequest(n, from, req).node)
            == Watch(ViewOf(n), Packet(from, RequestMsg(req), 0))
  {
  }

  lemma HandleView(n: NodeState, p: Packet)
    ensures ViewOf(Handle(n, p).node) == Watch(ViewOf(n), p)
  {
    var n1 := Received(n, p.logicalTime);
    assert ViewOf(n1) == ViewOf(n);
    match p.body
    case RequestMsg(req) => RequestView(n1, p.from, req);
    case ReleaseMsg(r) => ReleasedView(n1, p.from, r);
    case _ =>
  }

  lemma ReleasedView(n: NodeState, from: Uuid, r: string)
    ensures ViewOf(HandleLockRelease(n, from, r)) == View(n.lockHolders - {r}, RemoveHolder(n.waitForGraph, from))
  {
  }

  // ----- every run -----

  /** The message that `e` delivers to `i`, if any. */
  function Taking(s: Sys, e: Event, i: Uuid): seq<Packet> {
    if (e.Deliver? || e.DeliverAbort?) && e.i == i && Link(s, e.from, i) != [] then [Link(s, e.from, i)[0]]
    else []
  }

  /** The messages node `i` handles in a run, in order. */
  ghost function Delivered(s: Sys, es: seq<Event>, i: Uuid): seq<Packet>
    decreases |es|
  {
    if es == [] || !Enabled(s, es[0]) then []
    else Taking(s, es[0], i) + Delivered(Next(s, es[0]), es[1..], i)
  }

  lemma CallerView(s: Sys, e: Event)
    requires Enabled(s, e) && (e.CallRequestLock? || e.CallReleaseLock? || e.CallEnter?)
    ensures e.i in Next(s, e).nodes && SameView(s.nodes[e.i], Next(s, e).nodes[e.i])
  {
    var n := s.nodes[e.i];
    if e.CallRequestLock? {
      BroadcastView(WithRequest(n, e.r, s.now), RequestMsg(NewRequest(n, e.r, s.now)), e.order);
    } else if e.CallReleaseLock? {
      ReleaseLockView(n, e.r, e.order);
    } else {
      DropView(n, e.r, s.now, s.limit);
      BroadcastView(DropExpiredHeads(n, e.r, s.now, s.limit), AcquiredMsg(e.r), e.order);
    }
  }

  lemma AbortView(s: Sys, e: Event)
    requires Enabled(s, e) && e.DeliverAbort? && Linked(s)
    ensures e.i in Next(s, e).nodes && SameView(s.nodes[e.i], Next(s, e).nodes[e.i])
  {
    ReleaseAllView(Taken(s, e.from, e.i).nodes[e.i], e.rs, e.orders);
  }

  lemma SweepStepView(s: Sys, e: Event)
    requires Enabled(s, e) && e.CheckTimeouts?
    ensures e.i in Next(s, e).nodes && SameView(s.nodes[e.i], Next(s, e).nodes[e.i])
  {
    SweepView(s.nodes[e.i], e.rs, s.now, s.limit);
    var swept := SweepQueues(s.nodes[e.i], e.rs, s.now, s.limit);
    BroadcastReleasesView(swept.node, swept.toRelease, e.orders);
  }

  lemma LocalView(s: Sys, e: Event)
    requires Enabled(s, e) && (e.AbortSelf? || e.Tell? || e.OtherSend? || e.OtherReceive?)
    ensures e.i in Next(s, e).nodes && SameView(s.nodes[e.i], Next(s, e).nodes[e.i])
  {
    if e.AbortSelf? {
      ReleaseAllView(s.nodes[e.i], e.rs, e.orders);
    }
  }

  lemma DeliverView(s: Sys, e: Event)
    requires Enabled(s, e) && Linked(s) && (e.Deliver? || e.DeliverAbort?)
    ensures e.i in Next(s, e).nodes
    ensures ViewOf(Next(s, e).nodes[e.i]) == Watch(ViewOf(s.nodes[e.i]), Link(s, e.from, e.i)[0])
  {
    HandleView(s.nodes[e.i], Link(s, e.from, e.i)[0]);
    if e.DeliverAbort? {
      AbortView(s, e);
    }
  }

  /** A node's view changes by the messages it takes and by nothing else. */
  lemma OwnStepView(s: Sys, e: Event)
    requires Enabled(s, e) && Linked(s) && !e.TimePasses?
    ensures e.i in Next(s, e).nodes
    ensures ViewOf(Next(s, e).nodes[e.i]) == WatchAll(ViewOf(s.nodes[e.i]), Taking(s, e, e.i))
  {
    if e.Deliver? || e.DeliverAbort? {
      DeliverView(s, e);
      WatchOne(ViewOf(s.nodes[e.i]), Link(s, e.from, e.i)[0]);
      assert Taking(s, e, e.i) == [Link(s, e.from, e.i)[0]];
    } else if e.CheckTimeouts? {
      SweepStepView(s, e);
    } else if e.AbortSelf? || e.Tell? || e.OtherSend? || e.OtherReceive? {
      LocalView(s, e);
    } else {
      CallerView(s, e);
    }
  }

  lemma WatchOne(v: View, p: Packet)
    ensures WatchAll(v, [p]) == Watch(v, p)
  {
    assert [p][..0] == [];
  }

  lemma {:induction false} WatchAllJoin(v: View, ps: seq<Packet>, qs: seq<Packet>)
    ensures WatchAll(v, ps + qs) == WatchAll(WatchAll(v, ps), qs)
  {
    if qs == [] {
      assert ps + qs == ps;
    } else {
      WatchAllJoin(v, ps, qs[..|qs| - 1]);
      assert (ps + qs)[..|ps + qs| - 1] == ps + qs[..|qs| - 1];
    }
  }

  /** Node `i` alone may have changed. */
  ghost predicate Confined(s: Sys, s': Sys, i: Uuid) {
    && s'.nodes.Keys == s.nodes.Keys && s'.links.Keys == s.links.Keys
    && forall j | j in s.nodes && j != i :: s'.nodes[j] == s.nodes[j]
  }

  lemma PostConfined(s: Sys, s': Sys, i: Uuid, o: Outcome)
    requires i in s.nodes && s'.nodes == Post(s, i, o).nodes && s'.links == Post(s, i, o).links
    ensures Confined(s, s', i)
  {
  }

  lemma DeliverConfined(s: Sys, e: Event)
    requires Enabled(s, e) && Linked(s) && e.Deliver?
    ensures Confined(s, Next(s, e), e.i)
  {
    var s1 := Pop(s, e.from, e.i);
    PostConfined(s1, Next(s, e), e.i, Handle(s.nodes[e.i], Link(s, e.from, e.i)[0]));
  }

  lemma AbortConfined(s: Sys, e: Event)
    requires Enabled(s, e) && Linked(s) && e.DeliverAbort?
    ensures Confined(s, Next(s, e), e.i)
  {
    var s1, s2 := Pop(s, e.from, e.i), Taken(s, e.from, e.i);
    PostConfined(s1, s2, e.i, Handle(s.nodes[e.i], Link(s, e.from, e.i)[0]));
    PostConfined(s2, Next(s, e), e.i, ReleaseAll(s2.nodes[e.i], e.rs, e.orders));
  }

  lemma CallConfined(s: Sys, e: Event)
    requires Enabled(s, e) && (e.CallRequestLock? || e.CallReleaseLock? || e.CallEnter?)
    ensures Confined(s, Next(s, e), e.i)
  {
    var n := s.nodes[e.i];
    PostConfined(s, Next(s, e), e.i,
      if e.CallRequestLock? then RequestLock(n, e.r, s.now, e.order)
      else if e.CallReleaseLock? then LockState.ReleaseLock(n, e.r, e.order)
      else EnterCriticalSection(n, e.r, s.now, s.limit, e.order));
  }

  lemma SweepConfined(s: Sys, e: Event)
    requires Enabled(s, e) && e.CheckTimeouts?
    ensures Confined(s, Next(s, e), e.i)
  {
    var swept := SweepQueues(s.nodes[e.i], e.rs, s.now, s.limit);
    PostConfined(s, Next(s, e), e.i, BroadcastReleases(swept.node, swept.toRelease, e.orders));
  }

  lemma LocalConfined(s: Sys, e: Event)
    requires Enabled(s, e) && (e.AbortSelf? || e.Tell? || e.OtherSend? || e.OtherReceive?)
    ensures Confined(s, Next(s, e), e.i)
  {
    if e.AbortSelf? {
      PostConfined(s, Next(s, e), e.i, ReleaseAll(s.nodes[e.i], e.rs, e.orders));
    } else if e.Tell? {
      PostConfined(s, Next(s, e), e.i, SendOne(s.nodes[e.i], e.to, e.body));
    }
  }

  lemma StepConfined(s: Sys, e: Event)
    requires Enabled(s, e) && Linked(s) && !e.TimePasses?
    ensures Confined(s, Next(s, e), e.i)
  {
    if e.Deliver? {
      DeliverConfined(s, e);
    } else if e.DeliverAbort? {
      AbortConfined(s, e);
    } else if e.CheckTimeouts? {
      SweepConfined(s, e);
    } else if e.AbortSelf? || e.Tell? || e.OtherSend? || e.OtherReceive? {
      LocalConfined(s, e);
    } else {
      CallConfined(s, e);
    }
  }

  lemma StepView(s: Sys, e: Event, i: Uuid)
    requires Enabled(s, e) && Linked(s) && i in s.nodes
    ensures Linked(Next(s, e)) && i in Next(s, e).nodes
    ensures ViewOf(Next(s, e).nodes[i]) == WatchAll(ViewOf(s.nodes[i]), Taking(s, e, i))
  {
    if !e.TimePasses? {
      StepConfined(s, e);
      if e.i == i {
        OwnStepView(s, e);
      }
    }
  }

  lemma {:induction false} RunView(s: Sys, es: seq<Event>, t: Sys, i: Uuid)
    requires Linked(s) && i in s.nodes && Run(s, es, t, false)
    ensures i in t.nodes && ViewOf(t.nodes[i]) == WatchAll(ViewOf(s.nodes[i]), Delivered(s, es, i))
    decreases |es|
  {
    if es != [] {
      var s' := Next(s, es[0]);
      StepView(s, es[0], i);
      RunView(s', es[1..], t, i);
      WatchAllJoin(ViewOf(s.nodes[i]), Taking(s, es[0], i), Delivered(s', es[1..], i));
    }
  }

  // ----- the theorem -----

  /** In every run, disciplined or not, an edge from `w` to `h` is in the wait-for graph of a node exactly
      when that node handled a request of `w` while `h`, not `w`, was the recorded holder and has
      handled no release from `h` since. Nobody waits for itself. */
  lemma WaitForHistory(s: Sys, es: seq<Event>, t: Sys, i: Uuid, w: Uuid, h: Uuid)
    requires Init(s) && Run(s, es, t, false) && i in s.nodes
    ensures i in t.nodes
    ensures Edge(t.nodes[i].waitForGraph, w, h) <==> Waits(Delivered(s, es, i), w, h)
    ensures !Edge(t.nodes[i].waitForGraph, w, w)
  {
    RunView(s, es, t, i);
    WatchAllHistory(Delivered(s, es, i), "", w, h);
    WatchAllHistory(Delivered(s, es, i), "", w, w);
  }

  // ----- what an abort does to a deadlock -----

  /** Node `m` handles the releases of `v` one after the other. */
  function HandleReleases(m: NodeState, v: Uuid, rs: seq<string>): NodeState {
    if rs == [] then m else HandleLockRelease(HandleReleases(m, v, rs[..|rs| - 1]), v, rs[|rs| - 1])
  }

  lemma RemoveTwice(g: Graph, v: Uuid)
    ensures RemoveHolder(RemoveHolder(g, v), v) == RemoveHolder(g, v)
  {
    var g1 := RemoveHolder(g, v);
    assert forall w | w in g1 :: g1[w] - {v} == g1[w];
  }

  lemma {:induction false} ReleasesRemoveHolder(m: NodeState, v: Uuid, rs: seq<string>)
    ensures HandleReleases(m, v, rs).waitForGraph == if rs == [] then m.waitForGraph else RemoveHolder(m.waitForGraph, v)
  {
    if rs != [] {
      ReleasesRemoveHolder(m, v, rs[..|rs| - 1]);
      RemoveTwice(m.waitForGraph, v);
    }
  }

  /** The master `m` after it has sent its abort to `n.id`: it releases all of its own, a peer's releases
      arrive, and an unknown node is told nothing. */
  function AfterAbort(m: NodeState, n: NodeState, rs: seq<string>, orders: seq<seq<Uuid>>): NodeState
    requires |orders| == |rs|
  {
    if n.id == m.id then ReleaseAll(m, rs, orders).node
    else if n.id in m.peers then HandleReleases(m, n.id, rs)
    else m
  }

  /** The abort of the chosen victim, whose state is `n`, breaks the cycle that was found exactly when the
      lowest candidate of the cycle is below all of the lead-in, is not the master itself, and has a
      request queued. */
  lemma AbortBreaksCycleIff(m: NodeState, path: seq<Uuid>, n: NodeState, rs: seq<string>, orders: seq<seq<Uuid>>)
    requires ClosesCycle(m.waitForGraph, path) && IsVictim(m, path, n.id) && NIL !in path
    requires Enumerates(rs, OwnResources(n)) && |orders| == |rs|
    ensures !IsCycle(AfterAbort(m, n, rs, orders).waitForGraph, CyclePart(path))
            <==> LowestOnCycle(m, path) && n.id != m.id && OwnResources(n) != {}
  {
    CyclePartIsCycle(m.waitForGraph, path);
    CycleSurvivesIff(m.waitForGraph, CyclePart(path), n.id);
    VictimOnCycle(m, m.waitForGraph, path, n.id);
    ReleaseAllView(m, rs, orders);
    ReleasesRemoveHolder(m, n.id, rs);
    if rs == [] {
      assert OwnResources(n) == {};
    } else {
      assert rs[0] in OwnResources(n);
    }
  }
}
