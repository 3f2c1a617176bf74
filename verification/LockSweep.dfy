/** What the periodic sweep of expired requests (backend/dfs/node/node.go) leaves in the queues, what it tells the
    peers, and what they make of it. */
module LockSweep {
  import opened Uuids
  import opened Lamport
  import opened LockState
  import opened LockSystem
  import opened LockEffects
  import opened CycleSearch
  import opened WaitFor
  import opened DeadlockRounds

  /** A request of exactly 30 seconds is not expired yet, a later one is. */
  lemma ExpiryIsStrict(req: LockRequest, now: int)
    ensures Expired(req, now, LOCK_TIMEOUT) <==> now > req.requestedAt + 30 * 1_000_000_000
    ensures !Expired(req, now, Never)
  {
  }

  // ----- counting -----

  /** The own expired entries of `q`, by their places. */
  function OwnExpired(q: seq<LockRequest>, id: Uuid, now: int, limit: Limit): set<int> {
    set k | 0 <= k < |q| && q[k].nodeID == id && Expired(q[k], now, limit)
  }

  /** The releases of `r` on a link, by their places. */
  function ReleasesOf(link: seq<Packet>, r: string): set<int> {
    set k | 0 <= k < |link| && link[k].body == ReleaseMsg(r)
  }

  /** The places of `r` in a list of resources. */
  function PlacesOf(rs: seq<string>, r: string): set<int> {
    set k | 0 <= k < |rs| && rs[k] == r
  }

  lemma OwnExpiredMore(q: seq<LockRequest>, p: LockRequest, id: Uuid, now: int, limit: Limit)
    ensures OwnExpired(q + [p], id, now, limit)
            == OwnExpired(q, id, now, limit) + if p.nodeID == id && Expired(p, now, limit) then {|q|} else {}
  {
  }

  lemma {:induction false} ExpiredOfCounts(q: seq<LockRequest>, id: Uuid, now: int, limit: Limit)
    ensures ExpiredOf(q, id, now, limit) == |OwnExpired(q, id, now, limit)|
  {
    if q != [] {
      var front, last := q[..|q| - 1], q[|q| - 1];
      ExpiredOfCounts(front, id, now, limit);
      OwnExpiredMore(front, last, id, now, limit);
      assert q == front + [last];
    }
  }

  lemma PlacesOfOne(rs: seq<string>, x: string, r: string)
    ensures PlacesOf(rs + [x], r) == PlacesOf(rs, r) + if x == r then {|rs|} else {}
  {
  }

  lemma {:induction false} PlacesOfRepeat(rs: seq<string>, r: string, n: nat, r': string)
    ensures |PlacesOf(rs + Repeat(r, n), r')| == |PlacesOf(rs, r')| + if r' == r then n else 0
  {
    if n == 0 {
      assert rs + Repeat(r, 0) == rs;
    } else {
      PlacesOfRepeat(rs, r, n - 1, r');
      PlacesOfOne(rs + Repeat(r, n - 1), r, r');
      assert rs + Repeat(r, n) == rs + Repeat(r, n - 1) + [r];
    }
  }

  // ----- the queues and the list of releases -----

  /** Resource `r` after the sweep. */
  ghost predicate SweptAt(n: NodeState, n': NodeState, r: string, now: int, limit: Limit) {
    && (r in n'.lockQueue <==> r in n.lockQueue)
    && Queue(n', r) == Unexpired(Queue(n, r), now, limit)
    && (r in n'.pendingAcks <==> r in n.pendingAcks && OwnExpired(Queue(n, r), n.id, now, limit) == {})
    && (r in n'.pendingAcks ==> n'.pendingAcks[r] == n.pendingAcks[r])
  }

  ghost predicate Untouched(n: NodeState, n': NodeState, r: string) {
    && (r in n'.lockQueue <==> r in n.lockQueue) && Queue(n', r) == Queue(n, r)
    && (r in n'.pendingAcks <==> r in n.pendingAcks)
    && (r in n'.pendingAcks ==> n'.pendingAcks[r] == n.pendingAcks[r])
  }

  lemma SweepOne(n: NodeState, r: string, now: int, limit: Limit, r': string, rs: seq<string>)
    requires r in n.lockQueue
    ensures var s := SweepResource(n, r, now, limit);
            && s.node == n.(lockQueue := s.node.lockQueue, pendingAcks := s.node.pendingAcks)
            && (if r' == r then SweptAt(n, s.node, r', now, limit) else Untouched(n, s.node, r'))
            && |PlacesOf(rs + s.toRelease, r')|
               == |PlacesOf(rs, r')| + if r' == r then |OwnExpired(Queue(n, r), n.id, now, limit)| else 0
  {
    ExpiredOfCounts(Queue(n, r), n.id, now, limit);
    PlacesOfRepeat(rs, r, ExpiredOf(Queue(n, r), n.id, now, limit), r');
  }

  /** After the queues of `rs` were swept. */
  lemma {:induction false} SweepMany(n: NodeState, rs: seq<string>, now: int, limit: Limit, r: string)
    requires (forall i, j | 0 <= i < j < |rs| :: rs[i] != rs[j]) && forall x | x in rs :: x in n.lockQueue
    ensures var s := SweepQueues(n, rs, now, limit);
            && s.node == n.(lockQueue := s.node.lockQueue, pendingAcks := s.node.pendingAcks)
            && (if r in rs then SweptAt(n, s.node, r, now, limit) else Untouched(n, s.node, r))
            && |PlacesOf(s.toRelease, r)| == if r in rs then |OwnExpired(Queue(n, r), n.id, now, limit)| else 0
  {
    if rs != [] {
      var front, last := rs[..|rs| - 1], rs[|rs| - 1];
      var before := SweepQueues(n, front, now, limit);
      SweepMany(n, front, now, limit, r);
      SweepMany(n, front, now, limit, last);
      SweepOne(before.node, last, now, limit, r, before.toRelease);
      assert r in rs <==> r in front || r == last;
      assert last !in front;
    }
  }

  // ----- the messages -----

  /** `pks` are releases of `from`, of each resource as many as `rs` names it, one behind the other. */
  ghost predicate ReleasesIn(pks: seq<Packet>, from: Uuid, rs: seq<string>) {
    |pks| == |rs| && forall k | 0 <= k < |pks| :: pks[k].from == from && pks[k].body == ReleaseMsg(rs[k])
  }

  lemma {:induction false} SentReleases(n: NodeState, rs: seq<string>, orders: seq<seq<Uuid>>, j: Uuid)
    requires |orders| == |rs| && j in n.peers && forall o | o in orders :: Enumerates(o, n.peers.Keys)
    ensures var o := BroadcastReleases(n, rs, orders);
            && ReleasesIn(PacketsTo(o.out, j), n.id, rs)
            && o.node == n.(logicalTime := o.node.logicalTime)
  {
    if rs != [] {
      var k := |rs| - 1;
      var before := BroadcastReleases(n, rs[..k], orders[..k]);
      var last := Broadcast(before.node, ReleaseMsg(rs[k]), orders[k]);
      SentReleases(n, rs[..k], orders[..k], j);
      assert orders[k] in orders && j in orders[k];
      BroadcastTo(before.node, ReleaseMsg(rs[k]), orders[k], j);
      BroadcastHarmless(before.node, ReleaseMsg(rs[k]), orders[k]);
      PacketsToConcat(before.out, last.out, j);
      ReleasesInMore(PacketsTo(before.out, j), PacketsTo(last.out, j), n.id, rs);
    }
  }

  lemma ReleasesInMore(pks: seq<Packet>, last: seq<Packet>, from: Uuid, rs: seq<string>)
    requires rs != [] && ReleasesIn(pks, from, rs[..|rs| - 1])
    requires |last| == 1 && last[0].from == from && last[0].body == ReleaseMsg(rs[|rs| - 1])
    ensures ReleasesIn(pks + last, from, rs)
  {
    assert forall k | 0 <= k < |pks| :: rs[..|rs| - 1][k] == rs[k];
  }

  /** On the link from `i` to `j` there is exactly one release of `r` more for each own expired entry of `i` on
      `r`, for every `r`, and nothing else. */
  ghost predicate ToldReleases(s: Sys, s': Sys, i: Uuid, j: Uuid)
    requires i in s.nodes
  {
    var before, after := Link(s, i, j), Link(s', i, j);
    && before <= after
    && (forall k | |before| <= k < |after| :: after[k].from == s.nodes[i].id && after[k].body.ReleaseMsg?)
    && forall r :: |ReleasesOf(after[|before|..], r)| == |OwnExpired(Queue(s.nodes[i], r), s.nodes[i].id, s.now, s.limit)|
  }

  lemma ReleasesCounted(pks: seq<Packet>, from: Uuid, rs: seq<string>, r: string)
    requires ReleasesIn(pks, from, rs)
    ensures ReleasesOf(pks, r) == PlacesOf(rs, r)
  {
    forall k | 0 <= k < |pks|
      ensures k in ReleasesOf(pks, r) <==> k in PlacesOf(rs, r)
    {
      assert pks[k].body == ReleaseMsg(rs[k]);
    }
  }

  /** The sweep, in any state of the system and any order: every peer is told one release of each resource for
      each own expired entry and nothing else; the node keeps the entries that are not expired, in their order,
      and loses the acks of the resources where it had an own one that was. */
  lemma SweepTells(s: Sys, e: Event, j: Uuid, r: string)
    requires Linked(s) && Enabled(s, e) && e.CheckTimeouts? && j in s.nodes && j in s.nodes[e.i].peers
    ensures ToldReleases(s, Next(s, e), e.i, j)
    ensures e.i in Next(s, e).nodes && SweptAt(s.nodes[e.i], Next(s, e).nodes[e.i], r, s.now, s.limit)
  {
    var n, s' := s.nodes[e.i], Next(s, e);
    var swept := SweepQueues(n, e.rs, s.now, s.limit);
    var o := BroadcastReleases(swept.node, swept.toRelease, e.orders);
    SweepMany(n, e.rs, s.now, s.limit, r);
    SentReleases(swept.node, swept.toRelease, e.orders, j);
    var before, pks := Link(s, e.i, j), PacketsTo(o.out, j);
    assert s' == Post(s, e.i, o) && Link(s', e.i, j) == before + pks;
    assert (before + pks)[|before|..] == pks;
    forall r'
      ensures |ReleasesOf(pks, r')| == |OwnExpired(Queue(n, r'), n.id, s.now, s.limit)|
    {
      SweepMany(n, e.rs, s.now, s.limit, r');
      ReleasesCounted(pks, n.id, swept.toRelease, r');
      assert r' !in e.rs ==> Queue(n, r') == [] && OwnExpired([], n.id, s.now, s.limit) == {};
    }
  }

  lemma MultisetMore(q: seq<LockRequest>, x: LockRequest, p: LockRequest)
    ensures multiset(q + [x])[p] == multiset(q)[p] + if p == x then 1 else 0
  {
  }

  /** What is left of a queue: each entry that is not expired, as often as it was there and in the same order. */
  lemma {:induction false} UnexpiredKeeps(q: seq<LockRequest>, now: int, limit: Limit, p: LockRequest)
    ensures multiset(Unexpired(q, now, limit))[p] == if Expired(p, now, limit) then 0 else multiset(q)[p]
    ensures Within(Unexpired(q, now, limit), q)
  {
    if q != [] {
      var front, last := q[..|q| - 1], q[|q| - 1];
      UnexpiredKeeps(front, now, limit, p);
      assert q == front + [last];
      MultisetMore(front, last, p);
      MultisetMore(Unexpired(front, now, limit), last, p);
      WithinMore(Unexpired(front, now, limit), front, last);
    } else {
      assert Places([], [], []);
    }
  }

  /** `f` gives the places of `a` in `b`, in order. */
  ghost predicate Places(a: seq<LockRequest>, b: seq<LockRequest>, f: seq<int>) {
    && |f| == |a| && (forall k | 0 <= k < |a| :: 0 <= f[k] < |b| && b[f[k]] == a[k])
    && forall k, m | 0 <= k < m < |f| :: f[k] < f[m]
  }

  ghost predicate Within(a: seq<LockRequest>, b: seq<LockRequest>) {
    exists f :: Places(a, b, f)
  }

  lemma WithinMore(a: seq<LockRequest>, b: seq<LockRequest>, x: LockRequest)
    requires Within(a, b)
    ensures Within(a, b + [x]) && Within(a + [x], b + [x])
  {
    var f :| Places(a, b, f);
    assert Places(a, b + [x], f);
    assert Places(a + [x], b + [x], f + [|b|]);
  }

  // ----- expired heads -----

  /** `k` entries at the head of the queue are expired and the next one is not. */
  ghost predicate ExpiredHeads(q: seq<LockRequest>, k: int, now: int, limit: Limit) {
    && 0 <= k <= |q| && (forall i | 0 <= i < k :: Expired(q[i], now, limit))
    && (k < |q| ==> !Expired(q[k], now, limit))
  }

  ghost predicate OwnBefore(q: seq<LockRequest>, k: int, id: Uuid) {
    exists i :: 0 <= i < k <= |q| && q[i].nodeID == id
  }

  lemma OwnBeforeTail(q: seq<LockRequest>, k: int, id: Uuid)
    requires q != [] && 0 <= k <= |q| - 1
    ensures OwnBefore(q, k + 1, id) <==> q[0].nodeID == id || OwnBefore(q[1..], k, id)
  {
    if i :| 0 <= i < k + 1 && q[i].nodeID == id {
      assert i > 0 ==> q[1..][i - 1].nodeID == id;
    }
    if i :| 0 <= i < k && q[1..][i].nodeID == id {
      assert q[i + 1].nodeID == id;
    }
  }

  /** EnterCriticalSection drops exactly the expired entries at the head of the queue; if one of them was its own
      the acks of the resource go, and nothing else of the node changes. */
  lemma {:induction false} HeadsDropped(n: NodeState, r: string, now: int, limit: Limit, k: nat)
    requires ExpiredHeads(Queue(n, r), k, now, limit)
    ensures var n' := DropExpiredHeads(n, r, now, limit);
            && Queue(n', r) == Queue(n, r)[k..] && (forall x | x != r :: Queue(n', x) == Queue(n, x))
            && n'.pendingAcks == (if OwnBefore(Queue(n, r), k, n.id) then n.pendingAcks - {r} else n.pendingAcks)
            && n' == n.(lockQueue := n'.lockQueue, pendingAcks := n'.pendingAcks)
    decreases k
  {
    var q := Queue(n, r);
    if k > 0 {
      var acks := if q[0].nodeID == n.id then n.pendingAcks - {r} else n.pendingAcks;
      var n1 := n.(lockQueue := n.lockQueue[r := q[1..]], pendingAcks := acks);
      assert Queue(n1, r) == q[1..] && forall x | x != r :: Queue(n1, x) == Queue(n, x);
      assert ExpiredHeads(q[1..], k - 1, now, limit);
      HeadsDropped(n1, r, now, limit, k - 1);
      OwnBeforeTail(q, k - 1, n.id);
      assert q[1..][k - 1..] == q[k..] && acks - {r} == n.pendingAcks - {r};
    }
  }

  // ----- what a peer makes of them -----

  /** A node that has taken releases of `i` records no holder of these resources and nobody waiting for `i`. */
  lemma {:induction false} ReleasesTaken(m: NodeState, pks: seq<Packet>, i: Uuid)
    requires pks != [] && forall k | 0 <= k < |pks| :: pks[k].from == i && pks[k].body.ReleaseMsg?
    ensures forall w :: !Edge(HandleAll(m, pks).waitForGraph, w, i)
    ensures forall k | 0 <= k < |pks| :: pks[k].body.resourceID !in HandleAll(m, pks).lockHolders
  {
    var front, p := pks[..|pks| - 1], pks[|pks| - 1];
    var before := HandleAll(m, front);
    HandleView(before, p);
    if front != [] {
      ReleasesTaken(m, front, i);
      assert forall k | 0 <= k < |front| :: front[k] == pks[k];
    }
  }

  /** A peer, in whatever state it is, once it has taken what the sweep of `i` sent it: for each resource on which
      `i` had an expired entry nobody is the recorded holder, and if there was one, nobody waits for `i`. */
  lemma SweepForgotten(s: Sys, e: Event, j: Uuid, m: NodeState, r: string)
    requires Linked(s) && Enabled(s, e) && e.CheckTimeouts? && j in s.nodes && j in s.nodes[e.i].peers
    requires s.nodes[e.i].id == e.i && OwnExpired(Queue(s.nodes[e.i], r), e.i, s.now, s.limit) != {}
    ensures var m' := HandleAll(m, Link(Next(s, e), e.i, j)[|Link(s, e.i, j)|..]);
            r !in m'.lockHolders && forall w :: !Edge(m'.waitForGraph, w, e.i)
  {
    SweepTells(s, e, j, r);
    var pks := Link(Next(s, e), e.i, j)[|Link(s, e.i, j)|..];
    assert |ReleasesOf(pks, r)| > 0;
    var k :| k in ReleasesOf(pks, r);
    forall x | 0 <= x < |pks|
      ensures pks[x].from == e.i && pks[x].body.ReleaseMsg?
    {
      assert pks[x] == Link(Next(s, e), e.i, j)[x + |Link(s, e.i, j)|];
    }
    ReleasesTaken(m, pks, e.i);
    assert pks[k].body.resourceID == r;
  }
}
