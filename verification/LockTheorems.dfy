/** The theorems about every run of the lock protocol. */
module LockTheorems {
  import opened Uuids
  import opened Lamport
  import opened LockState
  import opened LockSystem
  import opened LockPairs
  import opened LockEffects
  import opened LockSafety
  import opened LockDelivery

  // ----- entering -----

  /** Who is at the head of its own queue with every ack precedes every live request elsewhere. */
  lemma HeadPrecedes(s: Sys, i: Uuid, r: string, j: Uuid, p: LockRequest)
    requires Protocol(s) && i in s.nodes && j in s.nodes && i != j
    requires HeadWithAllAcks(s.nodes[i], r) && j in Acks(s.nodes[i], r)
    requires Own(s.nodes[j], r, p) && !Expired(p, s.now, s.limit)
    ensures CompareLockRequests(Queue(s.nodes[i], r)[0], p)
  {
    var a, b, q := s.nodes[i], s.nodes[j], Queue(s.nodes[i], r)[0];
    assert LinkedPair(s, i, j) && LinkedPair(s, j, i);
    var ba := Link(s, j, i);
    CompareLockRequestsTotal(q, p);
    if CompareLockRequests(p, q) {
      assert NothingBehindAck(a, b, ba, r) && Own(a, r, q);
      assert forall k :: !Carries(ba, k, RequestMsg(p));
      assert Arrives(p, a, ba, r, s.now, s.limit);
      assert NodeOkAt(a, r) && p in Queue(a, r);
      HeadFirst(Queue(a, r), p);
    }
  }

  lemma HeadFirst(q: seq<LockRequest>, p: LockRequest)
    requires InOrder(q) && p in q
    ensures !CompareLockRequests(p, q[0])
  {
    CompareLockRequestsTotal(p, p);
    var k :| 0 <= k < |q| && q[k] == p;
  }

  lemma AllAcked(n: NodeState, r: string)
    requires NodeOk(n) && |Acks(n, r)| >= |n.peers|
    ensures Acks(n, r) == n.peers.Keys
  {
    assert NodeOkAt(n, r);
    SameSize(Acks(n, r), n.peers.Keys);
  }

  lemma SameSize<T>(a: set<T>, b: set<T>)
    requires a <= b && |a| >= |b|
    ensures a == b
  {
    var rest := b - a;
    assert b == a + rest && |b| == |a| + |rest|;
  }

  lemma HeadPrecedesNode(s: Sys, i: Uuid, r: string, j: Uuid)
    requires Protocol(s) && i in s.nodes && j in s.nodes && HeadWithAllAcks(s.nodes[i], r)
    ensures Precedes(Queue(s.nodes[i], r)[0], s.nodes[j], r, s.now, s.limit)
  {
    var n, q := s.nodes[i], Queue(s.nodes[i], r)[0];
    assert NodeOkAt(n, r);
    if j == i {
      forall p | Own(n, r, p)
        ensures p == q
      {
        OneOfUnique(Queue(n, r), i, p, q);
      }
    } else {
      AllAcked(n, r);
      assert LinkedPair(s, i, j) && Own(n, r, q) && Acked(n, s.nodes[j], Link(s, j, i), r);
      forall p | Own(s.nodes[j], r, p) && !Expired(p, s.now, s.limit)
        ensures CompareLockRequests(q, p)
      {
        HeadPrecedes(s, i, r, j, p);
      }
    }
  }

  /** A request that is granted again is the one granted last. */
  lemma RegrantIsLast(s: Sys, i: Uuid, r: string)
    requires GrantsOkAt(s, r) && i in s.nodes && HeadWithAllAcks(s.nodes[i], r)
    requires !Expired(Queue(s.nodes[i], r)[0], s.now, s.limit) && Queue(s.nodes[i], r)[0] in Grants(s, r)
    ensures Queue(s.nodes[i], r)[0] == Grants(s, r)[|Grants(s, r)| - 1]
  {
    var q, gs := Queue(s.nodes[i], r)[0], Grants(s, r);
    var last := gs[|gs| - 1];
    var k :| 0 <= k < |gs| && gs[k] == q;
    assert last in Grants(s, r) && Precedes(last, s.nodes[i], r, s.now, s.limit) && Own(s.nodes[i], r, q);
    CompareLockRequestsTotal(q, last);
  }

  lemma GrantAscends(s: Sys, i: Uuid, r: string, r': string)
    requires GrantsOkAt(s, r') && i in s.nodes && HeadWithAllAcks(s.nodes[i], r)
    requires !Expired(Queue(s.nodes[i], r)[0], s.now, s.limit)
    ensures Ascending(Grants(Granted(s, i, r, Queue(s.nodes[i], r)[0]), r'))
  {
    var q := Queue(s.nodes[i], r)[0];
    var s' := Granted(s, i, r, q);
    if r' != r {
      assert Grants(s', r') == Grants(s, r');
    } else if q in Grants(s, r) {
      RegrantIsLast(s, i, r);
      assert Grants(s', r) == Grants(s, r);
    } else {
      assert Grants(s', r') == Grants(s, r) + [q];
      forall g | g in Grants(s, r)
        ensures CompareLockRequests(g, q)
      {
        assert Precedes(g, s.nodes[i], r, s.now, s.limit) && Own(s.nodes[i], r, q);
      }
    }
  }

  lemma GrantKeepsAt(s: Sys, i: Uuid, r: string, r': string)
    requires Inv(s) && i in s.nodes && HeadWithAllAcks(s.nodes[i], r)
    requires !Expired(Queue(s.nodes[i], r)[0], s.now, s.limit)
    ensures GrantsOkAt(Granted(s, i, r, Queue(s.nodes[i], r)[0]), r')
  {
    assert GrantsOkAt(s, r');
    GrantAscends(s, i, r, r');
    var s' := Granted(s, i, r, Queue(s.nodes[i], r)[0]);
    forall g, j | g in Grants(s', r') && j in s'.nodes
      ensures Precedes(g, s'.nodes[j], r', s'.now, s'.limit)
    {
      if g in Grants(s, r') {
        assert Precedes(g, s.nodes[j], r', s.now, s.limit);
      } else {
        HeadPrecedesNode(s, i, r, j);
      }
    }
  }

  /** Granting loses no grant, and the one granted is in. */
  lemma GrantedIn(s: Sys, i: Uuid, r: string, q: LockRequest, r': string)
    ensures forall g | g in Grants(s, r') :: g in Grants(Granted(s, i, r, q), r')
    ensures q in Grants(Granted(s, i, r, q), r)
  {
  }

  lemma GrantKeepsEntered(s: Sys, i: Uuid, r: string)
    requires Protocol(s) && EnteredOk(s) && i in s.nodes && HeadWithAllAcks(s.nodes[i], r)
    ensures EnteredOk(Granted(s, i, r, Queue(s.nodes[i], r)[0]))
  {
    var q := Queue(s.nodes[i], r)[0];
    var s' := Granted(s, i, r, q);
    assert q in Queue(s.nodes[i], r);
    forall j, r' | (j, r') in s'.entered
      ensures j in s'.nodes && s'.entered[(j, r')].nodeID == j && s'.entered[(j, r')] in Grants(s', r')
      ensures Expired(s'.entered[(j, r')], s'.now, s'.limit) || s'.entered[(j, r')] in Queue(s'.nodes[j], r')
    {
      GrantedIn(s, i, r, q, r');
    }
  }

  lemma GrantKeeps(s: Sys, i: Uuid, r: string)
    requires Inv(s) && i in s.nodes && HeadWithAllAcks(s.nodes[i], r)
    requires !Expired(Queue(s.nodes[i], r)[0], s.now, s.limit)
    ensures Inv(Granted(s, i, r, Queue(s.nodes[i], r)[0]))
  {
    var s' := Granted(s, i, r, Queue(s.nodes[i], r)[0]);
    ProtocolSame(s, s');
    GrantKeepsEntered(s, i, r);
    forall r'
      ensures GrantsOkAt(s', r')
    {
      GrantKeepsAt(s, i, r, r');
    }
  }

  lemma EnterStep(s: Sys, i: Uuid, r: string, order: seq<Uuid>)
    requires Inv(s) && i in s.nodes
    ensures var n1 := DropExpiredHeads(s.nodes[i], r, s.now, s.limit);
            var s1 := Post(s, i, EnterCriticalSection(s.nodes[i], r, s.now, s.limit, order));
            Inv(s1) && (HeadWithAllAcks(n1, r) ==> Inv(Granted(s1, i, r, Queue(n1, r)[0])))
  {
    var n := s.nodes[i];
    var n1 := DropExpiredHeads(n, r, s.now, s.limit);
    DropShrinks(n, r, s.now, s.limit);
    var o := EnterCriticalSection(n, r, s.now, s.limit, order);
    if HeadWithAllAcks(n1, r) {
      BroadcastHarmless(n1, AcquiredMsg(r), order);
      ClockShrinks(n1, o.node.logicalTime, [], s.now, s.limit);
      ShrinksTransitive(n, n1, o.node, [], s.now, s.limit);
      QuietStep(s, i, o, []);
      assert Queue(o.node, r) == Queue(n1, r) && Acks(o.node, r) == Acks(n1, r);
      GrantKeeps(Post(s, i, o), i, r);
    } else {
      QuietStep(s, i, o, []);
    }
  }

  // ----- every step -----

  lemma ClockPosts(s: Sys, i: Uuid, time: int)
    requires i in s.nodes
    ensures Post(s, i, Outcome(s.nodes[i].(logicalTime := time), [])) == WithClock(s, i, time)
  {
    var s' := Post(s, i, Outcome(s.nodes[i].(logicalTime := time), []));
    assert forall k | k in s.links :: s'.links[k] == s.links[k];
    assert s'.links == s.links;
  }

  lemma ClockStep(s: Sys, i: Uuid, time: int)
    requires Inv(s) && i in s.nodes && time >= s.nodes[i].logicalTime
    ensures Inv(WithClock(s, i, time))
  {
    ClockShrinks(s.nodes[i], time, [], s.now, s.limit);
    QuietStep(s, i, Outcome(s.nodes[i].(logicalTime := time), []), []);
    ClockPosts(s, i, time);
  }

  lemma SweepStep(s: Sys, e: Event)
    requires Inv(s) && Enabled(s, e) && e.CheckTimeouts?
    ensures Inv(Next(s, e))
  {
    var n := s.nodes[e.i];
    var swept := SweepQueues(n, e.rs, s.now, s.limit);
    SweepShrinks(n, e.rs, s.now, s.limit);
    BroadcastReleasesEffect(swept.node, swept.toRelease, e.orders, s.now, s.limit);
    var o := BroadcastReleases(swept.node, swept.toRelease, e.orders);
    ShrinksTransitive(n, swept.node, o.node, [], s.now, s.limit);
    QuietStep(s, e.i, o, []);
  }

  lemma TellStep(s: Sys, i: Uuid, to: Uuid, body: MessageBody)
    requires Inv(s) && i in s.nodes && Neutral(body)
    ensures Inv(Post(s, i, SendOne(s.nodes[i], to, body)))
  {
    var o := SendOne(s.nodes[i], to, body);
    ClockShrinks(s.nodes[i], o.node.logicalTime, [], s.now, s.limit);
    QuietStep(s, i, o, []);
  }

  lemma ReleaseStep(s: Sys, i: Uuid, rs: seq<string>, orders: seq<seq<Uuid>>)
    requires Inv(s) && i in s.nodes && |orders| == |rs|
    ensures Inv(Left(Post(s, i, ReleaseAll(s.nodes[i], rs, orders)), i, rs))
  {
    ReleaseAllEffect(s.nodes[i], rs, orders, rs, s.now, s.limit);
    QuietStep(s, i, ReleaseAll(s.nodes[i], rs, orders), rs);
  }

  lemma ReleaseOneStep(s: Sys, i: Uuid, r: string, order: seq<Uuid>)
    requires Inv(s) && i in s.nodes
    ensures Inv(Left(Post(s, i, ReleaseLock(s.nodes[i], r, order)), i, [r]))
  {
    ReleaseLockEffect(s.nodes[i], r, order, [r], s.now, s.limit);
    QuietStep(s, i, ReleaseLock(s.nodes[i], r, order), [r]);
  }

  lemma DeliverAbortStep(s: Sys, e: Event)
    requires Inv(s) && Enabled(s, e) && e.DeliverAbort?
    ensures Inv(Next(s, e))
  {
    TakenInv(s, e.from, e.i);
    ReleaseStep(Taken(s, e.from, e.i), e.i, e.rs, e.orders);
  }

  lemma RequestStep(s: Sys, e: Event)
    requires Inv(s) && Enabled(s, e) && Disciplined(s, e) && e.CallRequestLock?
    ensures Inv(Next(s, e))
  {
    RequestProtocol(s, e.i, e.r, e.order);
    RequestHistory(s, e.i, e.r, e.order);
  }

  lemma CallerStep(s: Sys, e: Event)
    requires Inv(s) && Enabled(s, e) && (e.CallReleaseLock? || e.CallEnter? || e.AbortSelf? || e.Tell?)
    ensures Inv(Next(s, e))
  {
    match e
    case CallReleaseLock(i, r, order) => ReleaseOneStep(s, i, r, order);
    case CallEnter(i, r, order) => EnterStep(s, i, r, order);
    case AbortSelf(i, rs, orders) => ReleaseStep(s, i, rs, orders);
    case Tell(i, to, body) => TellStep(s, i, to, body);
  }

  lemma EnvironmentStep(s: Sys, e: Event)
    requires Inv(s) && Enabled(s, e) && (e.OtherSend? || e.OtherReceive? || e.TimePasses?)
    ensures Inv(Next(s, e))
  {
    if e.TimePasses? {
      TimeStep(s, e.later);
    } else {
      var n := s.nodes[e.i];
      var time := if e.OtherSend? then n.logicalTime + 1 else Received(n, e.time).logicalTime;
      assert Next(s, e) == WithClock(s, e.i, time);
      ClockStep(s, e.i, time);
    }
  }

  lemma StepInv(s: Sys, e: Event)
    requires Inv(s) && Enabled(s, e) && Disciplined(s, e)
    ensures Inv(Next(s, e))
  {
    if e.CallRequestLock? {
      RequestStep(s, e);
    } else if e.CheckTimeouts? {
      SweepStep(s, e);
    } else if e.Deliver? {
      TakenInv(s, e.from, e.i);
    } else if e.DeliverAbort? {
      DeliverAbortStep(s, e);
    } else if e.OtherSend? || e.OtherReceive? || e.TimePasses? {
      EnvironmentStep(s, e);
    } else {
      CallerStep(s, e);
    }
  }

  lemma {:induction false} RunInv(s: Sys, es: seq<Event>, t: Sys)
    requires Inv(s) && Run(s, es, t, true)
    ensures Inv(t) && t.limit == s.limit
    decreases |es|
  {
    if es != [] {
      StepInv(s, es[0]);
      RunInv(Next(s, es[0]), es[1..], t);
    }
  }

  // ----- the theorems -----

  /** In every reachable state at most one node has entered and not released a resource while its own
      request is unexpired. */
  lemma AtMostOneUnexpiredInside(s: Sys, es: seq<Event>, t: Sys, i: Uuid, k: Uuid, r: string)
    requires Init(s) && Run(s, es, t, true)
    requires (i, r) in t.entered && !Expired(t.entered[(i, r)], t.now, t.limit)
    requires (k, r) in t.entered && !Expired(t.entered[(k, r)], t.now, t.limit)
    ensures i == k
  {
    InitInv(s);
    RunInv(s, es, t);
    assert GrantsOkAt(t, r);
    var p, q := t.entered[(i, r)], t.entered[(k, r)];
    assert Precedes(p, t.nodes[k], r, t.now, t.limit) && Precedes(q, t.nodes[i], r, t.now, t.limit);
    CompareLockRequestsTotal(p, q);
  }

  /** Without expiry, at most one node is between a successful EnterCriticalSection and ReleaseLock. */
  lemma AtMostOneInside(s: Sys, es: seq<Event>, t: Sys, i: Uuid, k: Uuid, r: string)
    requires Init(s) && Run(s, es, t, true) && s.limit == Never
    requires (i, r) in t.entered && (k, r) in t.entered
    ensures i == k
  {
    InitInv(s);
    RunInv(s, es, t);
    AtMostOneUnexpiredInside(s, es, t, i, k, r);
  }

  /** Grants on a resource come in strictly increasing order of logical time and node, with or without expiry. */
  lemma GrantsAscend(s: Sys, es: seq<Event>, t: Sys, r: string)
    requires Init(s) && Run(s, es, t, true)
    ensures Ascending(Grants(t, r))
  {
    InitInv(s);
    RunInv(s, es, t);
    assert GrantsOkAt(t, r);
  }
}
