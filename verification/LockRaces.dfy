/** Runs in which two nodes are inside a critical section: after the request of the first has expired, and
    when a caller asks again before the acks to its last request are in. */
module LockRaces {
  import opened Uuids
  import opened Lamport
  import opened LockState
  import opened LockSystem
  import Sorting

  ghost predicate Steps(s: Sys, e: Event, t: Sys, disciplined: bool) {
    Enabled(s, e) && (disciplined ==> Disciplined(s, e)) && Next(s, e) == t
  }

  ghost predicate Reaches(s: Sys, t: Sys, disciplined: bool) {
    exists es :: Run(s, es, t, disciplined)
  }

  lemma {:induction false} RunJoin(s: Sys, es: seq<Event>, t: Sys, more: seq<Event>, u: Sys, disciplined: bool)
    requires Run(s, es, t, disciplined) && Run(t, more, u, disciplined)
    ensures Run(s, es + more, u, disciplined)
    decreases |es|
  {
    var all := es + more;
    if es == [] {
      assert all == more;
    } else {
      assert all[0] == es[0] && all[1..] == es[1..] + more;
      RunJoin(Next(s, es[0]), es[1..], t, more, u, disciplined);
    }
  }

  lemma Then(s: Sys, t: Sys, e: Event, u: Sys, disciplined: bool)
    requires Reaches(s, t, disciplined) && Steps(t, e, u, disciplined)
    ensures Reaches(s, u, disciplined)
  {
    var es :| Run(s, es, t, disciplined);
    OneStep(t, e, u, disciplined);
    RunJoin(s, es, t, [e], u, disciplined);
  }

  lemma OneStep(t: Sys, e: Event, u: Sys, disciplined: bool)
    requires Steps(t, e, u, disciplined)
    ensures Run(t, [e], u, disciplined)
  {
    var none: seq<Event> := [];
    assert [e][1..] == none && Run(u, none, u, disciplined);
  }

  // ----- two nodes -----

  /** The node `i` beside `j`; nobody waits for anybody. */
  function N(i: Uuid, j: Uuid, clock: int, lq: map<string, seq<LockRequest>>, pa: map<string, set<Uuid>>,
             lh: map<string, Uuid>): NodeState {
    NodeState(i, 0, map[j := 0], clock, lq, pa, lh, map[])
  }

  function Links(i: Uuid, j: Uuid, ij: seq<Packet>, ji: seq<Packet>): map<(Uuid, Uuid), seq<Packet>> {
    map[(i, i) := [], (j, j) := [], (i, j) := ij, (j, i) := ji]
  }

  /** What else the state of two nodes holds. */
  datatype Rest = Rest(
    now: int,
    limit: Limit,
    entered: map<(Uuid, string), LockRequest>,
    grants: map<string, seq<LockRequest>>)

  function Duo(i: Uuid, j: Uuid, ni: NodeState, nj: NodeState, ij: seq<Packet>, ji: seq<Packet>, x: Rest): Sys {
    Sys(map[i := ni, j := nj], Links(i, j, ij, ji), x.now, x.limit, x.entered, x.grants)
  }

  lemma LinksPost(i: Uuid, j: Uuid, ij: seq<Packet>, ji: seq<Packet>, out: seq<Send>)
    requires i != j && PacketsTo(out, i) == []
    ensures Extended(Links(i, j, ij, ji), i, out) == Links(i, j, ij + PacketsTo(out, j), ji)
  {
    var l, l' := Links(i, j, ij, ji), Links(i, j, ij + PacketsTo(out, j), ji);
    assert l[(i, i)] + PacketsTo(out, i) == [];
    forall k | k in l
      ensures k in l' && l'[k] == if k.0 == i then l[k] + PacketsTo(out, k.1) else l[k]
    {
    }
  }

  lemma LinksSwap(i: Uuid, j: Uuid, ij: seq<Packet>, ji: seq<Packet>)
    requires i != j
    ensures Links(i, j, ij, ji) == Links(j, i, ji, ij)
  {
  }

  lemma PostDuo(i: Uuid, j: Uuid, ni: NodeState, nj: NodeState, ij: seq<Packet>, ji: seq<Packet>, x: Rest, o: Outcome)
    requires i != j && PacketsTo(o.out, i) == []
    ensures Post(Duo(i, j, ni, nj, ij, ji, x), i, o) == Duo(i, j, o.node, nj, ij + PacketsTo(o.out, j), ji, x)
  {
    LinksPost(i, j, ij, ji, o.out);
    assert map[i := ni, j := nj][i := o.node] == map[i := o.node, j := nj];
  }

  /** The same two nodes, the other one first. */
  lemma Swap(i: Uuid, j: Uuid, ni: NodeState, nj: NodeState, ij: seq<Packet>, ji: seq<Packet>, x: Rest)
    requires i != j
    ensures Duo(i, j, ni, nj, ij, ji, x) == Duo(j, i, nj, ni, ji, ij, x)
  {
    LinksSwap(i, j, ij, ji);
    assert map[i := ni, j := nj] == map[j := nj, i := ni];
  }

  lemma ToOne(i: Uuid, j: Uuid, p: Packet)
    requires i != j
    ensures PacketsTo([Send(j, p)], j) == [p] && PacketsTo([Send(j, p)], i) == []
  {
    assert [Send(j, p)][..0] == [];
  }

  lemma OneBroadcast(n: NodeState, j: Uuid, body: MessageBody)
    ensures Broadcast(n, body, [j])
            == Outcome(n.(logicalTime := n.logicalTime + 1), [Send(j, Packet(n.id, body, n.logicalTime + 1))])
  {
    assert [j][..0] == [];
  }

  // ----- what the steps do to two nodes -----

  ghost predicate Pair(i: Uuid, j: Uuid, n: NodeState) {
    i != j && n.id == i && n.peers == map[j := 0]
  }

  lemma OneOrder(i: Uuid, j: Uuid, n: NodeState)
    requires Pair(i, j, n)
    ensures Enumerates([j], n.peers.Keys) && |n.peers| == 1
  {
    assert n.peers.Keys == {j};
  }

  /** What a step of `i` starts from. */
  lemma DuoReady(i: Uuid, j: Uuid, n: NodeState, nj: NodeState, ij: seq<Packet>, ji: seq<Packet>, x: Rest)
    requires Pair(i, j, n)
    ensures var s := Duo(i, j, n, nj, ij, ji, x);
            i in s.nodes && s.nodes[i] == n && Enumerates([j], s.nodes[i].peers.Keys)
  {
    OneOrder(i, j, n);
  }

  lemma RequestOutcome(i: Uuid, j: Uuid, n: NodeState, r: string, now: int)
    requires Pair(i, j, n)
    ensures RequestLock(n, r, now, [j])
            == Outcome(WithRequest(n, r, now).(logicalTime := n.logicalTime + 2),
                       [Send(j, Packet(i, RequestMsg(NewRequest(n, r, now)), n.logicalTime + 2))])
  {
    OneBroadcast(WithRequest(n, r, now), j, RequestMsg(NewRequest(n, r, now)));
  }

  lemma DuoRequests(i: Uuid, j: Uuid, n: NodeState, nj: NodeState, ij: seq<Packet>, ji: seq<Packet>, x: Rest, r: string,
                    n': NodeState, ij': seq<Packet>)
    requires Pair(i, j, n) && n' == WithRequest(n, r, x.now).(logicalTime := n.logicalTime + 2)
    requires ij' == ij + [Packet(i, RequestMsg(NewRequest(n, r, x.now)), n.logicalTime + 2)]
    ensures var s := Duo(i, j, n, nj, ij, ji, x); var e := CallRequestLock(i, r, [j]);
            Steps(s, e, Duo(i, j, n', nj, ij', ji, x), Disciplined(s, e))
  {
    var s, p := Duo(i, j, n, nj, ij, ji, x), Packet(i, RequestMsg(NewRequest(n, r, x.now)), n.logicalTime + 2);
    DuoReady(i, j, n, nj, ij, ji, x);
    RequestOutcome(i, j, n, r, x.now);
    ToOne(i, j, p);
    PostDuo(i, j, n, nj, ij, ji, x, Outcome(n', [Send(j, p)]));
    assert Next(s, CallRequestLock(i, r, [j])) == Post(s, i, Outcome(n', [Send(j, p)]));
  }

  /** `i` may ask: it has no own entry and nothing of an earlier request is on the links. */
  lemma DuoMayRequest(i: Uuid, j: Uuid, n: NodeState, nj: NodeState, ij: seq<Packet>, ji: seq<Packet>, x: Rest, r: string)
    requires Pair(i, j, n) && NoOwn(n, r) && ij == []
    requires forall k | 0 <= k < |ji| :: ji[k].body != AckMsg(r)
    ensures Disciplined(Duo(i, j, n, nj, ij, ji, x), CallRequestLock(i, r, [j]))
  {
    var s := Duo(i, j, n, nj, ij, ji, x);
    assert Link(s, i, j) == ij && Link(s, j, i) == ji;
    assert NothingPending(ij, ji, r);
  }

  lemma DuoPops(i: Uuid, j: Uuid, n: NodeState, nj: NodeState, ij: seq<Packet>, ji: seq<Packet>, x: Rest, p: Packet)
    requires i != j
    ensures var s := Duo(i, j, n, nj, ij, [p] + ji, x);
            (j, i) in s.links && Link(s, j, i) == [p] + ji && Pop(s, j, i) == Duo(i, j, n, nj, ij, ji, x)
  {
    var s := Duo(i, j, n, nj, ij, [p] + ji, x);
    assert ([p] + ji)[1..] == ji;
    assert s.links[(j, i) := ji] == Links(i, j, ij, ji);
  }

  /** `i` takes the first message of `j`. */
  lemma DuoTakes(i: Uuid, j: Uuid, n: NodeState, nj: NodeState, ij: seq<Packet>, ji: seq<Packet>, x: Rest,
                 p: Packet, o: Outcome, reply: seq<Packet>)
    requires Pair(i, j, n) && !p.body.AbortMsg? && o == Handle(n, p)
    requires PacketsTo(o.out, i) == [] && PacketsTo(o.out, j) == reply
    ensures var s := Duo(i, j, n, nj, ij, [p] + ji, x); var e := Deliver(j, i);
            Steps(s, e, Duo(i, j, o.node, nj, ij + reply, ji, x), true)
  {
    var s := Duo(i, j, n, nj, ij, [p] + ji, x);
    DuoReady(i, j, n, nj, ij, [p] + ji, x);
    DuoPops(i, j, n, nj, ij, ji, x, p);
    PostDuo(i, j, n, nj, ij, ji, x, o);
    assert Link(s, j, i)[0] == p;
    assert Taken(s, j, i) == Post(Pop(s, j, i), i, o);
  }

  /** `j` takes the first message of `i`. */
  lemma DuoGives(i: Uuid, j: Uuid, ni: NodeState, n: NodeState, ij: seq<Packet>, ji: seq<Packet>, x: Rest,
                 p: Packet, o: Outcome, reply: seq<Packet>)
    requires Pair(j, i, n) && !p.body.AbortMsg? && o == Handle(n, p)
    requires PacketsTo(o.out, j) == [] && PacketsTo(o.out, i) == reply
    ensures var s := Duo(i, j, ni, n, [p] + ij, ji, x); var e := Deliver(i, j);
            Steps(s, e, Duo(i, j, ni, o.node, ij, ji + reply, x), true)
  {
    Swap(i, j, ni, n, [p] + ij, ji, x);
    DuoTakes(j, i, n, ni, ji, ij, x, p, o, reply);
    Swap(i, j, ni, o.node, ij, ji + reply, x);
  }

  /** `j` takes it and does not answer. */
  lemma DuoHears(i: Uuid, j: Uuid, ni: NodeState, n: NodeState, ij: seq<Packet>, ji: seq<Packet>, x: Rest,
                 p: Packet, n': NodeState)
    requires Pair(j, i, n) && !p.body.AbortMsg? && Outcome(n', []) == Handle(n, p)
    ensures Steps(Duo(i, j, ni, n, [p] + ij, ji, x), Deliver(i, j), Duo(i, j, ni, n', ij, ji, x), true)
  {
    assert ji + [] == ji;
    DuoGives(i, j, ni, n, ij, ji, x, p, Outcome(n', []), []);
  }

  /** `i` may enter. */
  lemma DuoEnters(i: Uuid, j: Uuid, n: NodeState, nj: NodeState, ij: seq<Packet>, ji: seq<Packet>, x: Rest, r: string,
                  n1: NodeState, x': Rest)
    requires Pair(i, j, n) && n1 == DropExpiredHeads(n, r, x.now, x.limit) && n1.id == i && HeadWithAllAcks(n1, r)
    requires var q := Queue(n1, r)[0];
             && (r !in x.grants || q !in x.grants[r])
             && x' == x.(entered := x.entered[(i, r) := q],
                         grants := x.grants[r := (if r in x.grants then x.grants[r] else []) + [q]])
    ensures var s := Duo(i, j, n, nj, ij, ji, x); var e := CallEnter(i, r, [j]);
            Steps(s, e, Duo(i, j, n1.(logicalTime := n1.logicalTime + 1), nj,
                            ij + [Packet(i, AcquiredMsg(r), n1.logicalTime + 1)], ji, x'), true)
  {
    DuoReady(i, j, n, nj, ij, ji, x);
    OneBroadcast(n1, j, AcquiredMsg(r));
    ToOne(i, j, Packet(i, AcquiredMsg(r), n1.logicalTime + 1));
    var s, o := Duo(i, j, n, nj, ij, ji, x), EnterCriticalSection(n, r, x.now, x.limit, [j]);
    PostDuo(i, j, n, nj, ij, ji, x, o);
    var s1 := Post(s, i, o);
    assert Grants(s1, r) == if r in x.grants then x.grants[r] else [];
    assert Next(s, CallEnter(i, r, [j])) == Granted(s1, i, r, Queue(n1, r)[0]);
  }

  // ----- the handlers on two nodes -----

  lemma TakesRequest(i: Uuid, j: Uuid, clock: int, lq: map<string, seq<LockRequest>>, pa: map<string, set<Uuid>>,
                     time: int, q: LockRequest)
    requires i != j
    ensures var t := (if time > clock then time else clock) + 2; var r := q.resourceID;
            Handle(N(i, j, clock, lq, pa, map[]), Packet(j, RequestMsg(q), time))
            == Outcome(N(i, j, t, lq[r := Enqueue(QueueIn(lq, r), q)], pa, map[]), [Send(j, Packet(i, AckMsg(r), t))])
  {
  }

  lemma TakesAck(i: Uuid, j: Uuid, clock: int, lq: map<string, seq<LockRequest>>, lh: map<string, Uuid>,
                 time: int, r: string)
    requires i != j
    ensures Handle(N(i, j, clock, lq, map[r := {}], lh), Packet(j, AckMsg(r), time))
            == Outcome(N(i, j, (if time > clock then time else clock) + 1, lq, map[r := {j}], lh), [])
  {
    assert {} + {j} == {j};
  }

  lemma TakesAcquired(i: Uuid, j: Uuid, clock: int, lq: map<string, seq<LockRequest>>, pa: map<string, set<Uuid>>,
                      time: int, r: string)
    requires i != j
    ensures Handle(N(i, j, clock, lq, pa, map[]), Packet(j, AcquiredMsg(r), time))
            == Outcome(N(i, j, (if time > clock then time else clock) + 1, lq, pa, map[r := j]), [])
  {
  }

  function QueueIn(lq: map<string, seq<LockRequest>>, r: string): seq<LockRequest> {
    if r in lq then lq[r] else []
  }

  lemma EnqueueFirst(q: LockRequest)
    ensures Enqueue([], q) == [q]
  {
    Sorting.AppendAndSort([], q, CompareLockRequests);
    assert [] + [q] == [q];
  }

  lemma EnqueueLater(p: LockRequest, q: LockRequest)
    requires p.logicalTime < q.logicalTime
    ensures Enqueue([p], q) == [p, q]
  {
    assert Sorting.Sorted([p], CompareLockRequests);
    Sorting.AppendAndSort([p], q, CompareLockRequests);
    assert [p] + [q] == [p, q];
  }

  // ----- two nodes inside once the first request has expired -----

  /** `i` asks at time 0, `j` once that request has expired. */
  function First(i: Uuid, r: string): LockRequest {
    LockRequest(r, i, 1, 0)
  }

  function Second(j: Uuid, r: string, d: int): LockRequest {
    LockRequest(r, j, 5, d + 1)
  }

  function Fresh(i: Uuid, j: Uuid): NodeState {
    N(i, j, 0, map[], map[], map[])
  }

  function Quiet(d: int): Rest {
    Rest(0, After(d), map[], map[])
  }

  function Inside(i: Uuid, r: string, d: int, now: int): Rest {
    Rest(now, After(d), map[(i, r) := First(i, r)], map[r := [First(i, r)]])
  }

  function OneQueued(i: Uuid, r: string): map<string, seq<LockRequest>> {
    map[r := [First(i, r)]]
  }

  function TwoQueued(i: Uuid, j: Uuid, r: string, d: int): map<string, seq<LockRequest>> {
    map[r := [First(i, r), Second(j, r, d)]]
  }

  /** `i` with its request, `j` with that of `i`, and both once that of `j` is queued as well. */
  function Asker(i: Uuid, j: Uuid, r: string, clock: int, acks: set<Uuid>): NodeState {
    N(i, j, clock, OneQueued(i, r), map[r := acks], map[])
  }

  function Holder(i: Uuid, j: Uuid, r: string, clock: int): NodeState {
    N(j, i, clock, OneQueued(i, r), map[], map[])
  }

  function Leader(i: Uuid, j: Uuid, r: string, d: int, clock: int): NodeState {
    N(i, j, clock, TwoQueued(i, j, r, d), map[r := {j}], map[])
  }

  function Rival(i: Uuid, j: Uuid, r: string, d: int, clock: int, acks: set<Uuid>, holders: map<string, Uuid>)
    : NodeState
  {
    N(j, i, clock, TwoQueued(i, j, r, d), map[r := acks], holders)
  }

  function Start(i: Uuid, j: Uuid, d: int): Sys {
    Duo(i, j, Fresh(i, j), Fresh(j, i), [], [], Quiet(d))
  }

  function Asked(i: Uuid, j: Uuid, r: string, d: int): Sys {
    Duo(i, j, Asker(i, j, r, 2, {}), Fresh(j, i), [Packet(i, RequestMsg(First(i, r)), 2)], [], Quiet(d))
  }

  function Heard(i: Uuid, j: Uuid, r: string, d: int): Sys {
    Duo(i, j, Asker(i, j, r, 2, {}), Holder(i, j, r, 4), [], [Packet(j, AckMsg(r), 4)], Quiet(d))
  }

  function AckedFirst(i: Uuid, j: Uuid, r: string, d: int): Sys {
    Duo(i, j, Asker(i, j, r, 5, {j}), Holder(i, j, r, 4), [], [], Quiet(d))
  }

  function Entered(i: Uuid, j: Uuid, r: string, d: int, now: int): Sys {
    Duo(i, j, Asker(i, j, r, 6, {j}), Holder(i, j, r, 4),
        [Packet(i, AcquiredMsg(r), 6)], [], Inside(i, r, d, now))
  }

  function AskedToo(i: Uuid, j: Uuid, r: string, d: int): Sys {
    Duo(i, j, Asker(i, j, r, 6, {j}), Rival(i, j, r, d, 6, {}, map[]),
        [Packet(i, AcquiredMsg(r), 6)], [Packet(j, RequestMsg(Second(j, r, d)), 6)], Inside(i, r, d, d + 1))
  }

  function ToldToo(i: Uuid, j: Uuid, r: string, d: int): Sys {
    Duo(i, j, Asker(i, j, r, 6, {j}), Rival(i, j, r, d, 7, {}, map[r := i]),
        [], [Packet(j, RequestMsg(Second(j, r, d)), 6)], Inside(i, r, d, d + 1))
  }

  function HeardToo(i: Uuid, j: Uuid, r: string, d: int): Sys {
    Duo(i, j, Leader(i, j, r, d, 8), Rival(i, j, r, d, 7, {}, map[r := i]),
        [Packet(i, AckMsg(r), 8)], [], Inside(i, r, d, d + 1))
  }

  function AckedToo(i: Uuid, j: Uuid, r: string, d: int): Sys {
    Duo(i, j, Leader(i, j, r, d, 8), Rival(i, j, r, d, 9, {i}, map[r := i]),
        [], [], Inside(i, r, d, d + 1))
  }

  lemma StepAsk(i: Uuid, j: Uuid, r: string, d: int)
    requires i != j
    ensures Steps(Start(i, j, d), CallRequestLock(i, r, [j]), Asked(i, j, r, d), true)
  {
    var n := Fresh(i, j);
    EnqueueFirst(First(i, r));
    assert WithRequest(n, r, 0).lockQueue == OneQueued(i, r) && WithRequest(n, r, 0).pendingAcks == map[r := {}];
    var out := [Packet(i, RequestMsg(First(i, r)), 2)];
    assert [] + out == out;
    DuoRequests(i, j, n, Fresh(j, i), [], [], Quiet(d), r, Asker(i, j, r, 2, {}), out);
    DuoMayRequest(i, j, n, Fresh(j, i), [], [], Quiet(d), r);
  }

  lemma StepHear(i: Uuid, j: Uuid, r: string, d: int)
    requires i != j
    ensures Steps(Asked(i, j, r, d), Deliver(i, j), Heard(i, j, r, d), true)
  {
    var n, p, x := Asker(i, j, r, 2, {}), Packet(i, RequestMsg(First(i, r)), 2), Quiet(d);
    EnqueueFirst(First(i, r));
    TakesRequest(j, i, 0, map[], map[], 2, First(i, r));
    ToOne(j, i, Packet(j, AckMsg(r), 4));
    assert [p] + [] == [p];
    DuoGives(i, j, n, Fresh(j, i), [], [], x, p, Handle(Fresh(j, i), p), [Packet(j, AckMsg(r), 4)]);
  }

  lemma StepAck(i: Uuid, j: Uuid, r: string, d: int)
    requires i != j
    ensures Steps(Heard(i, j, r, d), Deliver(j, i), AckedFirst(i, j, r, d), true)
  {
    var n, p := Asker(i, j, r, 2, {}), Packet(j, AckMsg(r), 4);
    TakesAck(i, j, 2, OneQueued(i, r), map[], 4, r);
    assert [p] + [] == [p];
    DuoTakes(i, j, n, Holder(i, j, r, 4), [], [], Quiet(d), p, Handle(n, p), []);
  }

  lemma StepEnter(i: Uuid, j: Uuid, r: string, d: int)
    requires i != j && d >= 0
    ensures Steps(AckedFirst(i, j, r, d), CallEnter(i, r, [j]), Entered(i, j, r, d, 0), true)
  {
    var n, out := Asker(i, j, r, 5, {j}), [Packet(i, AcquiredMsg(r), 6)];
    OneOrder(i, j, n);
    assert DropExpiredHeads(n, r, 0, After(d)) == n && HeadWithAllAcks(n, r);
    assert [] + out == out && [] + [First(i, r)] == [First(i, r)];
    DuoEnters(i, j, n, Holder(i, j, r, 4), [], [], Quiet(d), r, n, Inside(i, r, d, 0));
  }

  lemma StepAskToo(i: Uuid, j: Uuid, r: string, d: int)
    requires i != j
    ensures Steps(Entered(i, j, r, d, d + 1), CallRequestLock(j, r, [i]), AskedToo(i, j, r, d), true)
  {
    var ni, nj := Asker(i, j, r, 6, {j}), Holder(i, j, r, 4);
    var told, x, q := [Packet(i, AcquiredMsg(r), 6)], Inside(i, r, d, d + 1), Second(j, r, d);
    EnqueueLater(First(i, r), q);
    var nj', out := Rival(i, j, r, d, 6, {}, map[]), [Packet(j, RequestMsg(q), 6)];
    assert WithRequest(nj, r, d + 1).lockQueue == nj'.lockQueue;
    assert WithRequest(nj, r, d + 1).pendingAcks == nj'.pendingAcks;
    assert [] + out == out;
    DuoRequests(j, i, nj, ni, [], told, x, r, nj', out);
    DuoMayRequest(j, i, nj, ni, [], told, x, r);
    Swap(i, j, ni, nj, told, [], x);
    Swap(i, j, ni, nj', told, out, x);
  }

  lemma StepTellToo(i: Uuid, j: Uuid, r: string, d: int)
    requires i != j
    ensures Steps(AskedToo(i, j, r, d), Deliver(i, j), ToldToo(i, j, r, d), true)
  {
    var ni, nj := Asker(i, j, r, 6, {j}), Rival(i, j, r, d, 6, {}, map[]);
    var p, back, x := Packet(i, AcquiredMsg(r), 6), [Packet(j, RequestMsg(Second(j, r, d)), 6)], Inside(i, r, d, d + 1);
    TakesAcquired(j, i, 6, TwoQueued(i, j, r, d), map[r := {}], 6, r);
    assert [p] + [] == [p];
    DuoHears(i, j, ni, nj, [], back, x, p, Rival(i, j, r, d, 7, {}, map[r := i]));
  }

  lemma HandlesToo(i: Uuid, j: Uuid, r: string, d: int)
    requires i != j
    ensures Handle(Asker(i, j, r, 6, {j}), Packet(j, RequestMsg(Second(j, r, d)), 6))
            == Outcome(Leader(i, j, r, d, 8), [Send(j, Packet(i, AckMsg(r), 8))])
  {
    EnqueueLater(First(i, r), Second(j, r, d));
    TakesRequest(i, j, 6, OneQueued(i, r), map[r := {j}], 6, Second(j, r, d));
    assert OneQueued(i, r)[r := [First(i, r), Second(j, r, d)]] == TwoQueued(i, j, r, d);
  }

  lemma StepHearToo(i: Uuid, j: Uuid, r: string, d: int)
    requires i != j
    ensures Steps(ToldToo(i, j, r, d), Deliver(j, i), HeardToo(i, j, r, d), true)
  {
    var ni, nj := Asker(i, j, r, 6, {j}), Rival(i, j, r, d, 7, {}, map[r := i]);
    var p, x := Packet(j, RequestMsg(Second(j, r, d)), 6), Inside(i, r, d, d + 1);
    HandlesToo(i, j, r, d);
    ToOne(i, j, Packet(i, AckMsg(r), 8));
    assert [p] + [] == [p];
    var o := Outcome(Leader(i, j, r, d, 8), [Send(j, Packet(i, AckMsg(r), 8))]);
    DuoTakes(i, j, ni, nj, [], [], x, p, o, [Packet(i, AckMsg(r), 8)]);
  }

  lemma StepAckToo(i: Uuid, j: Uuid, r: string, d: int)
    requires i != j
    ensures Steps(HeardToo(i, j, r, d), Deliver(i, j), AckedToo(i, j, r, d), true)
  {
    var ni, nj := Leader(i, j, r, d, 8), Rival(i, j, r, d, 7, {}, map[r := i]);
    var p, x := Packet(i, AckMsg(r), 8), Inside(i, r, d, d + 1);
    TakesAck(j, i, 7, TwoQueued(i, j, r, d), map[r := i], 8, r);
    assert [p] + [] == [p];
    DuoHears(i, j, ni, nj, [], [], x, p, Rival(i, j, r, d, 9, {i}, map[r := i]));
  }

  /** `j` drops the expired request of `i` from its queue and enters. */
  lemma StepEnterToo(i: Uuid, j: Uuid, r: string, d: int) returns (t: Sys)
    requires i != j && d >= 0
    ensures Steps(AckedToo(i, j, r, d), CallEnter(j, r, [i]), t, true)
    ensures (i, r) in t.entered && (j, r) in t.entered
  {
    var q := Second(j, r, d);
    var ni, nj := Leader(i, j, r, d, 8), Rival(i, j, r, d, 9, {i}, map[r := i]);
    var n1 := N(j, i, 9, map[r := [q]], map[r := {i}], map[r := i]);
    assert [First(i, r), q][1..] == [q];
    assert DropExpiredHeads(n1, r, d + 1, After(d)) == n1;
    assert nj.(lockQueue := nj.lockQueue[r := [q]], pendingAcks := nj.pendingAcks) == n1;
    assert DropExpiredHeads(nj, r, d + 1, After(d)) == n1 && HeadWithAllAcks(n1, r);
    var x := Inside(i, r, d, d + 1);
    var x' := Rest(d + 1, After(d), x.entered[(j, r) := q], x.grants[r := x.grants[r] + [q]]);
    DuoEnters(j, i, nj, ni, [], [], x, r, n1, x');
    Swap(i, j, ni, nj, [], [], x);
    t := Next(AckedToo(i, j, r, d), CallEnter(j, r, [i]));
  }

  lemma StepWait(i: Uuid, j: Uuid, r: string, d: int)
    requires d >= 0
    ensures Steps(Entered(i, j, r, d, 0), TimePasses(d + 1), Entered(i, j, r, d, d + 1), true)
  {
  }

  lemma FirstInside(i: Uuid, j: Uuid, r: string, d: int)
    requires i != j && d >= 0
    ensures Reaches(Start(i, j, d), Entered(i, j, r, d, d + 1), true)
  {
    var s := Start(i, j, d);
    assert Run(s, [], s, true);
    StepAsk(i, j, r, d);
    Then(s, s, CallRequestLock(i, r, [j]), Asked(i, j, r, d), true);
    StepHear(i, j, r, d);
    Then(s, Asked(i, j, r, d), Deliver(i, j), Heard(i, j, r, d), true);
    StepAck(i, j, r, d);
    Then(s, Heard(i, j, r, d), Deliver(j, i), AckedFirst(i, j, r, d), true);
    StepEnter(i, j, r, d);
    Then(s, AckedFirst(i, j, r, d), CallEnter(i, r, [j]), Entered(i, j, r, d, 0), true);
    StepWait(i, j, r, d);
    Then(s, Entered(i, j, r, d, 0), TimePasses(d + 1), Entered(i, j, r, d, d + 1), true);
  }

  lemma SecondAcked(s: Sys, i: Uuid, j: Uuid, r: string, d: int)
    requires i != j && Reaches(s, Entered(i, j, r, d, d + 1), true)
    ensures Reaches(s, AckedToo(i, j, r, d), true)
  {
    StepAskToo(i, j, r, d);
    Then(s, Entered(i, j, r, d, d + 1), CallRequestLock(j, r, [i]), AskedToo(i, j, r, d), true);
    StepTellToo(i, j, r, d);
    Then(s, AskedToo(i, j, r, d), Deliver(i, j), ToldToo(i, j, r, d), true);
    StepHearToo(i, j, r, d);
    Then(s, ToldToo(i, j, r, d), Deliver(j, i), HeardToo(i, j, r, d), true);
    StepAckToo(i, j, r, d);
    Then(s, HeardToo(i, j, r, d), Deliver(i, j), AckedToo(i, j, r, d), true);
  }

  lemma StartsFresh(i: Uuid, j: Uuid, x: Rest)
    requires i != j && x.entered == map[] && x.grants == map[]
    ensures Init(Duo(i, j, Fresh(i, j), Fresh(j, i), [], [], x))
  {
    var s := Duo(i, j, Fresh(i, j), Fresh(j, i), [], [], x);
    assert s.nodes.Keys == {i, j};
    assert {i, j} - {i} == {j} && {i, j} - {j} == {i};
    assert s.nodes[i] == Fresh(i, j) && s.nodes[j] == Fresh(j, i);
    assert forall x, y | x in {i, j} && y in {i, j} :: (x, y) in s.links && s.links[(x, y)] == [];
  }

  /** With any expiry, 30 seconds included, two nodes can be between entering and releasing, although every
      caller keeps the discipline: the unexpired request of the second is enough. */
  lemma TwoInsideAfterExpiry(i: Uuid, j: Uuid, r: string, d: int) returns (s: Sys, es: seq<Event>, t: Sys)
    requires i != j && d >= 0
    ensures Init(s) && s.limit == After(d) && Run(s, es, t, true)
    ensures (i, r) in t.entered && (j, r) in t.entered
  {
    s := Start(i, j, d);
    StartsFresh(i, j, Quiet(d));
    FirstInside(i, j, r, d);
    SecondAcked(s, i, j, r, d);
    t := StepEnterToo(i, j, r, d);
    Then(s, AckedToo(i, j, r, d), CallEnter(j, r, [i]), t, true);
    es :| Run(s, es, t, true);
  }
}
