/** A discipline that a caller can keep by what it sees: it asks again once its entry is gone and every peer
    has acked its last request. It implies the discipline of MayRequest, which speaks of the links. */
module LockPrudence {
  import opened Uuids
  import opened Lamport
  import opened LockState
  import opened LockSystem
  import opened LockEffects
  import opened LockSafety
  import opened LockDelivery
  import opened LockTheorems

  /** For each node and resource that was asked for, the peers that have acked since. */
  type Ledger = map<(Uuid, string), set<Uuid>>

  function Noted(l: Ledger, s: Sys, e: Event): Ledger {
    if e.CallRequestLock? then l[(e.i, e.r) := {}]
    else if e.Deliver? && Link(s, e.from, e.i) != [] then NotedAck(l, e.i, Link(s, e.from, e.i)[0])
    else l
  }

  function NotedAck(l: Ledger, i: Uuid, p: Packet): Ledger {
    if p.body.AckMsg? && (i, p.body.resourceID) in l then
      l[(i, p.body.resourceID) := l[(i, p.body.resourceID)] + {p.from}]
    else l
  }

  /** The node asks for the first time, or everybody has acked its last request and its entry is gone. */
  ghost predicate Prudent(l: Ledger, s: Sys, e: Event) {
    e.CallRequestLock? && e.i in s.nodes ==>
      && NoOwn(s.nodes[e.i], e.r)
      && ((e.i, e.r) in l ==> s.nodes[e.i].peers.Keys <= l[(e.i, e.r)])
  }

  ghost predicate PrudentRun(s: Sys, l: Ledger, es: seq<Event>, t: Sys)
    decreases |es|
  {
    if es == [] then s == t
    else Enabled(s, es[0]) && Prudent(l, s, es[0]) && PrudentRun(Next(s, es[0]), Noted(l, s, es[0]), es[1..], t)
  }

  // ----- counting what is pending -----

  predicate IsRequest(p: Packet, r: string) {
    p.body.RequestMsg? && p.body.request.resourceID == r
  }

  /** The requests on `r` on a link, and the acks. */
  function Requests(link: seq<Packet>, r: string): nat {
    if link == [] then 0 else Requests(link[..|link| - 1], r) + if IsRequest(link[|link| - 1], r) then 1 else 0
  }

  function AcksOn(link: seq<Packet>, r: string): nat {
    if link == [] then 0 else AcksOn(link[..|link| - 1], r) + if link[|link| - 1].body == AckMsg(r) then 1 else 0
  }

  lemma {:induction false} CountsJoin(a: seq<Packet>, b: seq<Packet>, r: string)
    ensures Requests(a + b, r) == Requests(a, r) + Requests(b, r)
    ensures AcksOn(a + b, r) == AcksOn(a, r) + AcksOn(b, r)
  {
    if b == [] {
      assert a + b == a;
    } else {
      assert (a + b)[..|a + b| - 1] == a + b[..|b| - 1];
      CountsJoin(a, b[..|b| - 1], r);
    }
  }

  lemma CountsOne(p: Packet, r: string)
    ensures Requests([p], r) == if IsRequest(p, r) then 1 else 0
    ensures AcksOn([p], r) == if p.body == AckMsg(r) then 1 else 0
  {
    assert [p][..0] == [];
  }

  lemma CountsPopped(link: seq<Packet>, r: string)
    requires link != []
    ensures Requests(link, r) == Requests(link[1..], r) + if IsRequest(link[0], r) then 1 else 0
    ensures AcksOn(link, r) == AcksOn(link[1..], r) + if link[0].body == AckMsg(r) then 1 else 0
  {
    assert link == [link[0]] + link[1..];
    CountsJoin([link[0]], link[1..], r);
    CountsOne(link[0], r);
  }

  lemma {:induction false} CountsZero(link: seq<Packet>, r: string)
    ensures Requests(link, r) == 0 ==> forall k | 0 <= k < |link| :: !IsRequest(link[k], r)
    ensures AcksOn(link, r) == 0 ==> forall k | 0 <= k < |link| :: link[k].body != AckMsg(r)
  {
    if link != [] {
      CountsZero(link[..|link| - 1], r);
      assert forall k | 0 <= k < |link| - 1 :: link[..|link| - 1][k] == link[k];
    }
  }

  /** The requests on `r` on the way out and the acks on the way back. */
  function Pending(out: seq<Packet>, back: seq<Packet>, r: string): nat {
    Requests(out, r) + AcksOn(back, r)
  }

  lemma NonePending(out: seq<Packet>, back: seq<Packet>, r: string)
    requires Pending(out, back, r) == 0
    ensures NothingPending(out, back, r)
  {
    CountsZero(out, r);
    CountsZero(back, r);
    forall p: LockRequest | p.resourceID == r
      ensures !InFlight(out, RequestMsg(p))
    {
      assert forall k | 0 <= k < |out| && out[k].body == RequestMsg(p) :: IsRequest(out[k], r);
    }
  }

  // ----- the invariant -----

  ghost predicate Heard(l: Ledger, i: Uuid, r: string, j: Uuid) {
    (i, r) in l ==> j in l[(i, r)]
  }

  /** At most one request or ack is on its way between the two, and none once the ack was heard. */
  ghost predicate PendingOk(s: Sys, l: Ledger, i: Uuid, j: Uuid, r: string) {
    var pending := Pending(Link(s, i, j), Link(s, j, i), r);
    pending <= 1 && (Heard(l, i, r, j) ==> pending == 0)
  }

  ghost predicate LedgerOk(s: Sys, l: Ledger) {
    forall i, j, r | i in s.nodes && j in s.nodes && i != j :: PendingOk(s, l, i, j, r)
  }

  lemma PrudentMayRequest(s: Sys, l: Ledger, e: Event)
    requires Shape(s) && LedgerOk(s, l) && Enabled(s, e) && Prudent(l, s, e)
    ensures Disciplined(s, e)
  {
    if e.CallRequestLock? {
      forall j | j in s.nodes && j != e.i
        ensures NothingPending(Link(s, e.i, j), Link(s, j, e.i), e.r)
      {
        assert PendingOk(s, l, e.i, j, e.r);
        NonePending(Link(s, e.i, j), Link(s, j, e.i), e.r);
      }
    }
  }

  // ----- steps that send neither requests nor acks -----

  ghost predicate Quiet(out: seq<Send>) {
    forall x | x in out :: !x.packet.body.RequestMsg? && !x.packet.body.AckMsg?
  }

  lemma {:induction false} QuietCounts(link: seq<Packet>, r: string)
    requires forall p | p in link :: !p.body.RequestMsg? && !p.body.AckMsg?
    ensures Requests(link, r) == 0 && AcksOn(link, r) == 0
  {
    if link != [] {
      QuietCounts(link[..|link| - 1], r);
    }
  }

  lemma QuietTo(out: seq<Send>, j: Uuid, r: string)
    requires Quiet(out)
    ensures Requests(PacketsTo(out, j), r) == 0 && AcksOn(PacketsTo(out, j), r) == 0
  {
    PacketsToSent(out, j);
    forall p | p in PacketsTo(out, j)
      ensures !p.body.RequestMsg? && !p.body.AckMsg?
    {
      var x :| x in out && x.packet == p;
    }
    QuietCounts(PacketsTo(out, j), r);
  }

  lemma PostLink(s: Sys, i: Uuid, o: Outcome, x: Uuid, y: Uuid)
    requires Linked(s) && i in s.nodes && x in s.nodes && y in s.nodes
    ensures Link(Post(s, i, o), x, y) == if x == i then Link(s, x, y) + PacketsTo(o.out, y) else Link(s, x, y)
  {
  }

  lemma QuietPending(s: Sys, l: Ledger, i: Uuid, o: Outcome, x: Uuid, y: Uuid, r: string)
    requires Linked(s) && i in s.nodes && x in s.nodes && y in s.nodes && Quiet(o.out) && PendingOk(s, l, x, y, r)
    ensures PendingOk(Post(s, i, o), l, x, y, r)
  {
    PostLink(s, i, o, x, y);
    PostLink(s, i, o, y, x);
    CountsJoin(Link(s, x, y), PacketsTo(o.out, y), r);
    CountsJoin(Link(s, y, x), PacketsTo(o.out, x), r);
    QuietTo(o.out, x, r);
    QuietTo(o.out, y, r);
  }

  lemma QuietLedger(s: Sys, l: Ledger, i: Uuid, o: Outcome)
    requires Linked(s) && i in s.nodes && Quiet(o.out) && LedgerOk(s, l)
    ensures LedgerOk(Post(s, i, o), l)
  {
    forall x, y, r | x in s.nodes && y in s.nodes && x != y
      ensures PendingOk(Post(s, i, o), l, x, y, r)
    {
      assert PendingOk(s, l, x, y, r);
      QuietPending(s, l, i, o, x, y, r);
    }
  }

  lemma SameLedger(s: Sys, s': Sys, l: Ledger)
    requires LedgerOk(s, l) && s'.nodes.Keys == s.nodes.Keys && s'.links == s.links
    ensures LedgerOk(s', l)
  {
    forall x, y, r | x in s'.nodes && y in s'.nodes && x != y
      ensures PendingOk(s', l, x, y, r)
    {
      assert PendingOk(s, l, x, y, r) && Link(s', x, y) == Link(s, x, y) && Link(s', y, x) == Link(s, y, x);
    }
  }

  lemma ReleaseQuiet(n: NodeState, r: string, order: seq<Uuid>)
    ensures Quiet(ReleaseLock(n, r, order).out)
  {
    var n1 := WithoutFirst(n, r, n.id);
    BroadcastHarmless(n1.(pendingAcks := n1.pendingAcks - {r}), ReleaseMsg(r), order);
  }

  lemma {:induction false} ReleaseAllQuiet(n: NodeState, rs: seq<string>, orders: seq<seq<Uuid>>)
    requires |orders| == |rs|
    ensures Quiet(ReleaseAll(n, rs, orders).out)
  {
    if rs != [] {
      var k := |rs| - 1;
      ReleaseAllQuiet(n, rs[..k], orders[..k]);
      ReleaseQuiet(ReleaseAll(n, rs[..k], orders[..k]).node, rs[k], orders[k]);
    }
  }

  lemma {:induction false} BroadcastReleasesQuiet(n: NodeState, rs: seq<string>, orders: seq<seq<Uuid>>)
    requires |orders| == |rs|
    ensures Quiet(BroadcastReleases(n, rs, orders).out)
  {
    if rs != [] {
      var k := |rs| - 1;
      BroadcastReleasesQuiet(n, rs[..k], orders[..k]);
      BroadcastHarmless(BroadcastReleases(n, rs[..k], orders[..k]).node, ReleaseMsg(rs[k]), orders[k]);
    }
  }

  lemma ReleaseLedger(s: Sys, l: Ledger, e: Event)
    requires Linked(s) && LedgerOk(s, l) && Enabled(s, e) && (e.CallReleaseLock? || e.AbortSelf?)
    ensures LedgerOk(Next(s, e), l)
  {
    var o: Outcome;
    if e.CallReleaseLock? {
      o := ReleaseLock(s.nodes[e.i], e.r, e.order);
      ReleaseQuiet(s.nodes[e.i], e.r, e.order);
    } else {
      o := ReleaseAll(s.nodes[e.i], e.rs, e.orders);
      ReleaseAllQuiet(s.nodes[e.i], e.rs, e.orders);
    }
    QuietLedger(s, l, e.i, o);
    SameLedger(Post(s, e.i, o), Next(s, e), l);
  }

  lemma EnterLedger(s: Sys, l: Ledger, e: Event)
    requires Linked(s) && LedgerOk(s, l) && Enabled(s, e) && e.CallEnter?
    ensures LedgerOk(Next(s, e), l)
  {
    var o := EnterCriticalSection(s.nodes[e.i], e.r, s.now, s.limit, e.order);
    BroadcastHarmless(DropExpiredHeads(s.nodes[e.i], e.r, s.now, s.limit), AcquiredMsg(e.r), e.order);
    QuietLedger(s, l, e.i, o);
    SameLedger(Post(s, e.i, o), Next(s, e), l);
  }

  lemma SweepLedger(s: Sys, l: Ledger, e: Event)
    requires Linked(s) && LedgerOk(s, l) && Enabled(s, e) && e.CheckTimeouts?
    ensures LedgerOk(Next(s, e), l)
  {
    var swept := SweepQueues(s.nodes[e.i], e.rs, s.now, s.limit);
    BroadcastReleasesQuiet(swept.node, swept.toRelease, e.orders);
    QuietLedger(s, l, e.i, BroadcastReleases(swept.node, swept.toRelease, e.orders));
  }

  lemma OtherLedger(s: Sys, l: Ledger, e: Event)
    requires Linked(s) && LedgerOk(s, l) && Enabled(s, e)
    requires e.Tell? || e.OtherSend? || e.OtherReceive? || e.TimePasses?
    ensures LedgerOk(Next(s, e), l)
  {
    if e.Tell? {
      QuietLedger(s, l, e.i, SendOne(s.nodes[e.i], e.to, e.body));
    } else {
      SameLedger(s, Next(s, e), l);
    }
  }

  // ----- a request -----

  function PendingBetween(s: Sys, x: Uuid, y: Uuid, r: string): nat {
    Pending(Link(s, x, y), Link(s, y, x), r)
  }

  lemma PendingPost(s: Sys, i: Uuid, o: Outcome, x: Uuid, y: Uuid, r: string)
    requires Linked(s) && i in s.nodes && x in s.nodes && y in s.nodes && x != y
    ensures PendingBetween(Post(s, i, o), x, y, r)
            == PendingBetween(s, x, y, r) + (if x == i then Requests(PacketsTo(o.out, y), r) else 0)
               + (if y == i then AcksOn(PacketsTo(o.out, x), r) else 0)
  {
    PostLink(s, i, o, x, y);
    PostLink(s, i, o, y, x);
    CountsJoin(Link(s, x, y), PacketsTo(o.out, y), r);
    CountsJoin(Link(s, y, x), PacketsTo(o.out, x), r);
  }

  /** A request reaches every other node once. */
  lemma RequestCounts(n: NodeState, r0: string, now: int, order: seq<Uuid>, j: Uuid, r: string)
    requires Enumerates(order, n.peers.Keys) && j in n.peers
    ensures var out := RequestLock(n, r0, now, order).out;
            Requests(PacketsTo(out, j), r) == (if r == r0 then 1 else 0) && AcksOn(PacketsTo(out, j), r) == 0
  {
    var body := RequestMsg(NewRequest(n, r0, now));
    BroadcastEffect(WithRequest(n, r0, now), body, order);
    var pks := PacketsTo(RequestLock(n, r0, now, order).out, j);
    assert OneCopy(pks, n.id, body, n.logicalTime + 1);
    assert pks == [pks[0]];
    CountsOne(pks[0], r);
  }

  /** The acks heard for one request say nothing of the others. */
  lemma HeardAfterRequest(l: Ledger, i: Uuid, r0: string, x: Uuid, r: string, y: Uuid)
    ensures Heard(l[(i, r0) := {}], x, r, y) == if (x, r) == (i, r0) then false else Heard(l, x, r, y)
  {
  }

  /** A request adds one at most, and that one where everything before it has been acked. */
  lemma RequestAdds(s: Sys, e: Event, x: Uuid, y: Uuid, r: string)
    requires Shape(s) && Enabled(s, e) && e.CallRequestLock? && x in s.nodes && y in s.nodes && x != y
    ensures PendingBetween(Post(s, e.i, RequestLock(s.nodes[e.i], e.r, s.now, e.order)), x, y, r)
            == PendingBetween(s, x, y, r) + if (x, r) == (e.i, e.r) then 1 else 0
  {
    var n := s.nodes[e.i];
    PendingPost(s, e.i, RequestLock(n, e.r, s.now, e.order), x, y, r);
    if x == e.i {
      RequestCounts(n, e.r, s.now, e.order, y, r);
    } else if y == e.i {
      RequestCounts(n, e.r, s.now, e.order, x, r);
    }
  }

  lemma RequestPending(s: Sys, s1: Sys, l: Ledger, l1: Ledger, e: Event, x: Uuid, y: Uuid, r: string)
    requires Shape(s) && PendingOk(s, l, x, y, r) && Enabled(s, e) && e.CallRequestLock? && Prudent(l, s, e)
    requires s1 == Post(s, e.i, RequestLock(s.nodes[e.i], e.r, s.now, e.order)) && l1 == l[(e.i, e.r) := {}]
    requires x in s.nodes && y in s.nodes && x != y
    ensures PendingOk(s1, l1, x, y, r)
  {
    RequestAdds(s, e, x, y, r);
    HeardAfterRequest(l, e.i, e.r, x, r, y);
    assert (x, r) == (e.i, e.r) ==> Heard(l, x, r, y);
  }

  lemma RequestLedger(s: Sys, l: Ledger, e: Event)
    requires Shape(s) && LedgerOk(s, l) && Enabled(s, e) && e.CallRequestLock? && Prudent(l, s, e)
    ensures LedgerOk(Next(s, e), Noted(l, s, e))
  {
    var s1 := Post(s, e.i, RequestLock(s.nodes[e.i], e.r, s.now, e.order));
    var l1 := l[(e.i, e.r) := {}];
    forall x, y, r | x in s.nodes && y in s.nodes && x != y
      ensures PendingOk(s1, l1, x, y, r)
    {
      assert PendingOk(s, l, x, y, r);
      RequestPending(s, s1, l, l1, e, x, y, r);
    }
  }

  // ----- a delivery -----

  lemma PopPending(s: Sys, j: Uuid, i: Uuid, x: Uuid, y: Uuid, r: string)
    requires Linked(s) && i in s.nodes && j in s.nodes && x in s.nodes && y in s.nodes && x != y && Link(s, j, i) != []
    ensures PendingBetween(s, x, y, r)
            == PendingBetween(Pop(s, j, i), x, y, r)
               + (if x == j && y == i && IsRequest(Link(s, j, i)[0], r) then 1 else 0)
               + (if x == i && y == j && Link(s, j, i)[0].body == AckMsg(r) then 1 else 0)
  {
    CountsPopped(Link(s, j, i), r);
    var s1 := Pop(s, j, i);
    assert Link(s1, j, i) == Link(s, j, i)[1..];
    assert (x, y) != (j, i) ==> Link(s1, x, y) == Link(s, x, y);
    assert (y, x) != (j, i) ==> Link(s1, y, x) == Link(s, y, x);
  }

  /** What is sent in reply: one ack for a request, and no request ever. */
  lemma ReplyCounts(n: NodeState, p: Packet, j: Uuid, r: string)
    ensures var out := Handle(n, p).out;
            && Requests(PacketsTo(out, j), r) == 0
            && AcksOn(PacketsTo(out, j), r) <= if j == p.from && IsRequest(p, r) then 1 else 0
  {
    var out := Handle(n, p).out;
    assert out == [] || (p.body.RequestMsg? && out == [Send(p.from, out[0].packet)]
                         && out[0].packet.body == AckMsg(p.body.request.resourceID));
    if out == [] {
      assert PacketsTo(out, j) == [];
    } else {
      PacketsToOne(p.from, out[0].packet, j);
      CountsOne(out[0].packet, r);
    }
  }

  lemma TakenPending(s: Sys, l: Ledger, j: Uuid, i: Uuid, x: Uuid, y: Uuid, r: string)
    requires Linked(s) && i in s.nodes && j in s.nodes && i != j && x in s.nodes && y in s.nodes && x != y
    requires Link(s, j, i) != [] && Link(s, j, i)[0].from == j && PendingOk(s, l, x, y, r)
    ensures PendingOk(Taken(s, j, i), NotedAck(l, i, Link(s, j, i)[0]), x, y, r)
  {
    var p := Link(s, j, i)[0];
    PopPending(s, j, i, x, y, r);
    PendingPost(Pop(s, j, i), i, Handle(s.nodes[i], p), x, y, r);
    ReplyCounts(s.nodes[i], p, x, r);
    ReplyCounts(s.nodes[i], p, y, r);
  }

  lemma TakenLedger(s: Sys, l: Ledger, j: Uuid, i: Uuid)
    requires Inv(s) && LedgerOk(s, l) && i in s.nodes && j in s.nodes && i != j && Link(s, j, i) != []
    ensures LedgerOk(Taken(s, j, i), NotedAck(l, i, Link(s, j, i)[0]))
  {
    assert LinkedPair(s, j, i);
    forall x, y, r | x in s.nodes && y in s.nodes && x != y
      ensures PendingOk(Taken(s, j, i), NotedAck(l, i, Link(s, j, i)[0]), x, y, r)
    {
      assert PendingOk(s, l, x, y, r);
      TakenPending(s, l, j, i, x, y, r);
    }
  }

  lemma AbortLedger(s: Sys, l: Ledger, e: Event)
    requires Inv(s) && LedgerOk(s, l) && Enabled(s, e) && e.DeliverAbort?
    ensures LedgerOk(Next(s, e), l)
  {
    TakenLedger(s, l, e.from, e.i);
    var s1 := Taken(s, e.from, e.i);
    var o := ReleaseAll(s1.nodes[e.i], e.rs, e.orders);
    TakenInv(s, e.from, e.i);
    ReleaseAllQuiet(s1.nodes[e.i], e.rs, e.orders);
    QuietLedger(s1, l, e.i, o);
    SameLedger(Post(s1, e.i, o), Next(s, e), l);
  }

  // ----- every run -----

  lemma StepLedger(s: Sys, l: Ledger, e: Event)
    requires Inv(s) && LedgerOk(s, l) && Enabled(s, e) && Prudent(l, s, e)
    ensures LedgerOk(Next(s, e), Noted(l, s, e))
  {
    if e.CallRequestLock? {
      RequestLedger(s, l, e);
    } else if e.Deliver? {
      TakenLedger(s, l, e.from, e.i);
    } else if e.DeliverAbort? {
      AbortLedger(s, l, e);
    } else if e.CallReleaseLock? || e.AbortSelf? {
      ReleaseLedger(s, l, e);
    } else if e.CallEnter? {
      EnterLedger(s, l, e);
    } else if e.CheckTimeouts? {
      SweepLedger(s, l, e);
    } else {
      OtherLedger(s, l, e);
    }
  }

  lemma {:induction false} PrudentSteps(s: Sys, l: Ledger, es: seq<Event>, t: Sys)
    requires Inv(s) && LedgerOk(s, l) && PrudentRun(s, l, es, t)
    ensures Run(s, es, t, true)
    decreases |es|
  {
    if es != [] {
      PrudentMayRequest(s, l, es[0]);
      StepLedger(s, l, es[0]);
      StepInv(s, es[0]);
      PrudentSteps(Next(s, es[0]), Noted(l, s, es[0]), es[1..], t);
    }
  }

  /** Callers that go by their own entries and the acks they have seen keep the discipline of MayRequest. */
  lemma PrudentIsDisciplined(s: Sys, es: seq<Event>, t: Sys)
    requires Init(s) && PrudentRun(s, map[], es, t)
    ensures Run(s, es, t, true)
  {
    InitInv(s);
    forall i, j, r | i in s.nodes && j in s.nodes && i != j
      ensures PendingOk(s, map[], i, j, r)
    {
      assert Link(s, i, j) == [] && Link(s, j, i) == [];
    }
    PrudentSteps(s, map[], es, t);
  }
}
