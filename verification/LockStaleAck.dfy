/** A run without expiry in which two nodes are inside, because a caller asks again before the ack to its
    released request is in: acks carry no request id, so the stale one counts for the new request. */
module LockStaleAck {
  import opened Uuids
  import opened Lamport
  import opened LockState
  import opened LockSystem
  import opened LockRaces
  import Sorting

  const IDLE := Rest(0, Never, map[], map[])

  function Old(i: Uuid, r: string): LockRequest { LockRequest(r, i, 1, 0) }

  function New(i: Uuid, r: string): LockRequest { LockRequest(r, i, 6, 0) }

  function Other(j: Uuid, r: string): LockRequest { LockRequest(r, j, 5, 0) }

  /** `i` is inside with its second request. */
  function Within(i: Uuid, r: string): Rest {
    Rest(0, Never, map[(i, r) := New(i, r)], map[r := [New(i, r)]])
  }

  // ----- more steps of two nodes -----

  lemma LeftNothing(s: Sys, i: Uuid, rs: seq<string>)
    requires s.entered == map[]
    ensures Left(s, i, rs) == s
  {
    assert Left(s, i, rs).entered == map[];
  }

  lemma ReleaseOutcome(i: Uuid, j: Uuid, n: NodeState, r: string, n': NodeState)
    requires Pair(i, j, n)
    requires n' == WithoutFirst(n, r, i).(pendingAcks := n.pendingAcks - {r}, logicalTime := n.logicalTime + 1)
    ensures LockState.ReleaseLock(n, r, [j]) == Outcome(n', [Send(j, Packet(i, ReleaseMsg(r), n'.logicalTime))])
  {
    var n1 := WithoutFirst(n, r, i);
    OneBroadcast(n1.(pendingAcks := n1.pendingAcks - {r}), j, ReleaseMsg(r));
  }

  lemma DuoReleases(i: Uuid, j: Uuid, n: NodeState, nj: NodeState, ij: seq<Packet>, ji: seq<Packet>, x: Rest, r: string,
                    n': NodeState)
    requires Pair(i, j, n) && x.entered == map[]
    requires n' == WithoutFirst(n, r, i).(pendingAcks := n.pendingAcks - {r}, logicalTime := n.logicalTime + 1)
    ensures var s := Duo(i, j, n, nj, ij, ji, x); var e := CallReleaseLock(i, r, [j]);
            Steps(s, e, Duo(i, j, n', nj, ij + [Packet(i, ReleaseMsg(r), n'.logicalTime)], ji, x), false)
  {
    var p := Packet(i, ReleaseMsg(r), n'.logicalTime);
    var s, o := Duo(i, j, n, nj, ij, ji, x), Outcome(n', [Send(j, p)]);
    DuoReady(i, j, n, nj, ij, ji, x);
    ReleaseOutcome(i, j, n, r, n');
    ToOne(i, j, p);
    PostDuo(i, j, n, nj, ij, ji, x, o);
    assert Next(s, CallReleaseLock(i, r, [j])) == Left(Post(s, i, o), i, [r]);
    LeftNothing(Duo(i, j, n', nj, ij + [p], ji, x), i, [r]);
  }

  lemma DuoSendsElsewhere(i: Uuid, j: Uuid, n: NodeState, nj: NodeState, ij: seq<Packet>, ji: seq<Packet>, x: Rest)
    requires Pair(i, j, n)
    ensures var s := Duo(i, j, n, nj, ij, ji, x); var e := OtherSend(i);
            Steps(s, e, Duo(i, j, n.(logicalTime := n.logicalTime + 1), nj, ij, ji, x), false)
  {
    var n' := n.(logicalTime := n.logicalTime + 1);
    DuoReady(i, j, n, nj, ij, ji, x);
    assert map[i := n, j := nj][i := n'] == map[i := n', j := nj];
    assert WithClock(Duo(i, j, n, nj, ij, ji, x), i, n.logicalTime + 1) == Duo(i, j, n', nj, ij, ji, x);
  }

  lemma TakesRelease(i: Uuid, j: Uuid, clock: int, p: LockRequest, q: LockRequest, pa: map<string, set<Uuid>>,
                     time: int, r: string)
    requires i != j && p.nodeID == j && q.nodeID == i
    ensures Handle(N(i, j, clock, map[r := [p, q]], pa, map[]), Packet(j, ReleaseMsg(r), time))
            == Outcome(N(i, j, (if time > clock then time else clock) + 1, map[r := [q]], pa, map[]), [])
  {
    assert RemoveFirst([p, q], j) == [q] by {
      assert [p, q][1..] == [q];
    }
    assert map[r := [p, q]][r := [q]] == map[r := [q]];
    assert RemoveHolder(map[], j) == map[];
  }

  lemma EnqueueEarlier(p: LockRequest, q: LockRequest)
    requires q.logicalTime < p.logicalTime
    ensures Enqueue([p], q) == [q, p]
  {
    assert Sorting.Sorted([p], CompareLockRequests);
    Sorting.AppendAndSort([p], q, CompareLockRequests);
    assert [p][..0] == [] && [] + [q] == [q] && [q] + [p] == [q, p];
  }

  // ----- the run -----

  /** `i` with one request queued, and with none. */
  function Mine(i: Uuid, j: Uuid, r: string, clock: int, q: LockRequest, acks: set<Uuid>): NodeState {
    N(i, j, clock, map[r := [q]], map[r := acks], map[])
  }

  function Released(i: Uuid, j: Uuid, r: string, clock: int): NodeState {
    N(i, j, clock, map[r := []], map[], map[])
  }

  function S0(i: Uuid, j: Uuid): Sys {
    Duo(i, j, Fresh(i, j), Fresh(j, i), [], [], IDLE)
  }

  /** `i` has asked. */
  function S1(i: Uuid, j: Uuid, r: string): Sys {
    Duo(i, j, Mine(i, j, r, 2, Old(i, r), {}), Fresh(j, i), [Packet(i, RequestMsg(Old(i, r)), 2)], [], IDLE)
  }

  function Keeper(i: Uuid, j: Uuid, r: string): NodeState {
    N(j, i, 4, map[r := [Old(i, r)]], map[], map[])
  }

  /** The ack is on its way. */
  function S2(i: Uuid, j: Uuid, r: string): Sys {
    Duo(i, j, Mine(i, j, r, 2, Old(i, r), {}), Keeper(i, j, r), [], [Packet(j, AckMsg(r), 4)], IDLE)
  }

  /** `i` has released, without ever entering; two answers to clients move its clock from 3 to 5. */
  function S4(i: Uuid, j: Uuid, r: string, clock: int): Sys {
    Duo(i, j, Released(i, j, r, clock), Keeper(i, j, r), [Packet(i, ReleaseMsg(r), 3)],
        [Packet(j, AckMsg(r), 4)], IDLE)
  }

  function Sent(i: Uuid, r: string): seq<Packet> {
    [Packet(i, ReleaseMsg(r), 3), Packet(i, RequestMsg(New(i, r)), 7)]
  }

  /** It asks again and takes the old ack for the new one. */
  function S5(i: Uuid, j: Uuid, r: string): Sys {
    Duo(i, j, Mine(i, j, r, 7, New(i, r), {}), Keeper(i, j, r), Sent(i, r),
        [Packet(j, AckMsg(r), 4)], IDLE)
  }

  function S6(i: Uuid, j: Uuid, r: string): Sys {
    Duo(i, j, Mine(i, j, r, 8, New(i, r), {j}), Keeper(i, j, r), Sent(i, r), [], IDLE)
  }

  function S7(i: Uuid, j: Uuid, r: string): Sys {
    Duo(i, j, Mine(i, j, r, 9, New(i, r), {j}), Keeper(i, j, r),
        Sent(i, r) + [Packet(i, AcquiredMsg(r), 9)], [], Within(i, r))
  }

  lemma Step1(i: Uuid, j: Uuid, r: string)
    requires i != j
    ensures Steps(S0(i, j), CallRequestLock(i, r, [j]), S1(i, j, r), false)
  {
    var n, out := Fresh(i, j), [Packet(i, RequestMsg(Old(i, r)), 2)];
    EnqueueFirst(Old(i, r));
    assert WithRequest(n, r, 0).lockQueue == map[r := [Old(i, r)]] && WithRequest(n, r, 0).pendingAcks == map[r := {}];
    assert [] + out == out;
    DuoRequests(i, j, n, Fresh(j, i), [], [], IDLE, r, Mine(i, j, r, 2, Old(i, r), {}), out);
  }

  lemma Step2(i: Uuid, j: Uuid, r: string)
    requires i != j
    ensures Steps(S1(i, j, r), Deliver(i, j), S2(i, j, r), false)
  {
    var p, back := Packet(i, RequestMsg(Old(i, r)), 2), [Packet(j, AckMsg(r), 4)];
    EnqueueFirst(Old(i, r));
    TakesRequest(j, i, 0, map[], map[], 2, Old(i, r));
    ToOne(j, i, back[0]);
    assert [p] + [] == [p] && [] + back == back;
    DuoGives(i, j, Mine(i, j, r, 2, Old(i, r), {}), Fresh(j, i), [], [], IDLE, p,
             Outcome(Keeper(i, j, r), [Send(i, back[0])]), back);
  }

  lemma Step3(i: Uuid, j: Uuid, r: string)
    requires i != j
    ensures Steps(S2(i, j, r), CallReleaseLock(i, r, [j]), S4(i, j, r, 3), false)
  {
    var n, n' := Mine(i, j, r, 2, Old(i, r), {}), Released(i, j, r, 3);
    var out := [Packet(i, ReleaseMsg(r), 3)];
    assert RemoveFirst([Old(i, r)], i) == [] && map[r := [Old(i, r)]][r := []] == map[r := []];
    assert n.pendingAcks - {r} == map[];
    assert WithoutFirst(n, r, i).(pendingAcks := n.pendingAcks - {r}, logicalTime := 3) == n';
    assert [] + out == out;
    DuoReleases(i, j, n, Keeper(i, j, r), [], [Packet(j, AckMsg(r), 4)], IDLE, r, n');
  }

  lemma Step4(i: Uuid, j: Uuid, r: string, clock: int)
    requires i != j
    ensures Steps(S4(i, j, r, clock), OtherSend(i), S4(i, j, r, clock + 1), false)
  {
    DuoSendsElsewhere(i, j, Released(i, j, r, clock), Keeper(i, j, r), [Packet(i, ReleaseMsg(r), 3)],
                      [Packet(j, AckMsg(r), 4)], IDLE);
  }

  lemma Step5(i: Uuid, j: Uuid, r: string)
    requires i != j
    ensures Steps(S4(i, j, r, 5), CallRequestLock(i, r, [j]), S5(i, j, r), false)
  {
    var n, out := Released(i, j, r, 5), [Packet(i, ReleaseMsg(r), 3)];
    EnqueueFirst(New(i, r));
    assert WithRequest(n, r, 0).lockQueue == map[r := [New(i, r)]] && WithRequest(n, r, 0).pendingAcks == map[r := {}];
    assert out + [Packet(i, RequestMsg(New(i, r)), 7)] == Sent(i, r);
    DuoRequests(i, j, n, Keeper(i, j, r), out, [Packet(j, AckMsg(r), 4)], IDLE, r,
                Mine(i, j, r, 7, New(i, r), {}), Sent(i, r));
  }

  lemma Step6(i: Uuid, j: Uuid, r: string)
    requires i != j
    ensures Steps(S5(i, j, r), Deliver(j, i), S6(i, j, r), false)
  {
    var n, p := Mine(i, j, r, 7, New(i, r), {}), Packet(j, AckMsg(r), 4);
    TakesAck(i, j, 7, map[r := [New(i, r)]], map[], 4, r);
    assert [p] + [] == [p] && Sent(i, r) + [] == Sent(i, r);
    DuoTakes(i, j, n, Keeper(i, j, r), Sent(i, r), [], IDLE, p, Outcome(Mine(i, j, r, 8, New(i, r), {j}), []), []);
  }

  lemma Step7(i: Uuid, j: Uuid, r: string)
    requires i != j
    ensures Steps(S6(i, j, r), CallEnter(i, r, [j]), S7(i, j, r), false)
  {
    var n := Mine(i, j, r, 8, New(i, r), {j});
    OneOrder(i, j, n);
    assert DropExpiredHeads(n, r, 0, Never) == n && HeadWithAllAcks(n, r);
    assert [] + [New(i, r)] == [New(i, r)];
    DuoEnters(i, j, n, Keeper(i, j, r), Sent(i, r), [], IDLE, r, n, Within(i, r));
  }

  // ----- the other node -----

  function Ahead(i: Uuid, j: Uuid, r: string): map<string, seq<LockRequest>> {
    map[r := [Other(j, r), New(i, r)]]
  }

  /** `j` with its request and the old one of `i`, with its own alone, and with both once more. */
  function Both(i: Uuid, j: Uuid, r: string): NodeState {
    N(j, i, 6, map[r := [Old(i, r), Other(j, r)]], map[r := {}], map[])
  }

  function Alone(i: Uuid, j: Uuid, r: string): NodeState {
    N(j, i, 7, map[r := [Other(j, r)]], map[r := {}], map[])
  }

  function Behind(i: Uuid, j: Uuid, r: string, clock: int, acks: set<Uuid>, holders: map<string, Uuid>): NodeState {
    N(j, i, clock, Ahead(i, j, r), map[r := acks], holders)
  }

  /** `j` asks, with an older timestamp. */
  function S8(i: Uuid, j: Uuid, r: string): Sys {
    Duo(i, j, Mine(i, j, r, 9, New(i, r), {j}), Both(i, j, r),
        Sent(i, r) + [Packet(i, AcquiredMsg(r), 9)], [Packet(j, RequestMsg(Other(j, r)), 6)], Within(i, r))
  }

  function Acker(i: Uuid, j: Uuid, r: string): NodeState {
    N(i, j, 11, Ahead(i, j, r), map[r := {j}], map[])
  }

  function Tail(i: Uuid, r: string): seq<Packet> {
    [Packet(i, AcquiredMsg(r), 9), Packet(i, AckMsg(r), 11)]
  }

  function S9(i: Uuid, j: Uuid, r: string): Sys {
    Duo(i, j, Acker(i, j, r), Both(i, j, r), Sent(i, r) + Tail(i, r), [], Within(i, r))
  }

  function S10(i: Uuid, j: Uuid, r: string): Sys {
    Duo(i, j, Acker(i, j, r), Alone(i, j, r),
        [Packet(i, RequestMsg(New(i, r)), 7)] + Tail(i, r), [], Within(i, r))
  }

  function S11(i: Uuid, j: Uuid, r: string): Sys {
    Duo(i, j, Acker(i, j, r), Behind(i, j, r, 9, {}, map[]), Tail(i, r),
        [Packet(j, AckMsg(r), 9)], Within(i, r))
  }

  function S12(i: Uuid, j: Uuid, r: string): Sys {
    Duo(i, j, Acker(i, j, r), Behind(i, j, r, 10, {}, map[r := i]), [Packet(i, AckMsg(r), 11)],
        [Packet(j, AckMsg(r), 9)], Within(i, r))
  }

  function S13(i: Uuid, j: Uuid, r: string): Sys {
    Duo(i, j, Acker(i, j, r), Behind(i, j, r, 12, {i}, map[r := i]), [],
        [Packet(j, AckMsg(r), 9)], Within(i, r))
  }

  lemma Step8(i: Uuid, j: Uuid, r: string)
    requires i != j
    ensures Steps(S7(i, j, r), CallRequestLock(j, r, [i]), S8(i, j, r), false)
  {
    var ni, n := Mine(i, j, r, 9, New(i, r), {j}), Keeper(i, j, r);
    var n', out := Both(i, j, r), [Packet(j, RequestMsg(Other(j, r)), 6)];
    var ij := Sent(i, r) + [Packet(i, AcquiredMsg(r), 9)];
    EnqueueLater(Old(i, r), Other(j, r));
    assert WithRequest(n, r, 0).lockQueue == n'.lockQueue && WithRequest(n, r, 0).pendingAcks == n'.pendingAcks;
    assert [] + out == out;
    Swap(i, j, ni, n, ij, [], Within(i, r));
    DuoRequests(j, i, n, ni, [], ij, Within(i, r), r, n', out);
    Swap(i, j, ni, n', ij, out, Within(i, r));
  }

  lemma Step9(i: Uuid, j: Uuid, r: string)
    requires i != j
    ensures Steps(S8(i, j, r), Deliver(j, i), S9(i, j, r), false)
  {
    var n, p := Mine(i, j, r, 9, New(i, r), {j}), Packet(j, RequestMsg(Other(j, r)), 6);
    var ij, ack := Sent(i, r) + [Packet(i, AcquiredMsg(r), 9)], Packet(i, AckMsg(r), 11);
    EnqueueEarlier(New(i, r), Other(j, r));
    TakesRequest(i, j, 9, map[r := [New(i, r)]], map[r := {j}], 6, Other(j, r));
    assert map[r := [New(i, r)]][r := [Other(j, r), New(i, r)]] == Ahead(i, j, r);
    ToOne(i, j, ack);
    assert [p] + [] == [p] && ij + [ack] == Sent(i, r) + Tail(i, r);
    DuoTakes(i, j, n, Both(i, j, r), ij, [], Within(i, r), p,
             Outcome(Acker(i, j, r), [Send(j, ack)]), [ack]);
  }

  lemma SentFirst(i: Uuid, r: string)
    ensures Sent(i, r) + Tail(i, r)
            == [Packet(i, ReleaseMsg(r), 3)] + ([Packet(i, RequestMsg(New(i, r)), 7)] + Tail(i, r))
  {
  }

  lemma TakesOldRelease(i: Uuid, j: Uuid, r: string)
    requires i != j
    ensures Handle(Both(i, j, r), Packet(i, ReleaseMsg(r), 3))
            == Outcome(Alone(i, j, r), [])
  {
    TakesRelease(j, i, 6, Old(i, r), Other(j, r), map[r := {}], 3, r);
  }

  lemma Step10(i: Uuid, j: Uuid, r: string)
    requires i != j
    ensures Steps(S9(i, j, r), Deliver(i, j), S10(i, j, r), false)
  {
    var n, n' := Both(i, j, r), Alone(i, j, r);
    var rest := [Packet(i, RequestMsg(New(i, r)), 7)] + Tail(i, r);
    TakesOldRelease(i, j, r);
    SentFirst(i, r);
    DuoHears(i, j, Acker(i, j, r), n, rest, [], Within(i, r), Packet(i, ReleaseMsg(r), 3), n');
  }

  lemma Step11(i: Uuid, j: Uuid, r: string)
    requires i != j
    ensures Steps(S10(i, j, r), Deliver(i, j), S11(i, j, r), false)
  {
    var n, p, ack := Alone(i, j, r), Packet(i, RequestMsg(New(i, r)), 7), Packet(j, AckMsg(r), 9);
    EnqueueLater(Other(j, r), New(i, r));
    TakesRequest(j, i, 7, map[r := [Other(j, r)]], map[r := {}], 7, New(i, r));
    assert map[r := [Other(j, r)]][r := [Other(j, r), New(i, r)]] == Ahead(i, j, r);
    ToOne(j, i, ack);
    assert [] + [ack] == [ack];
    DuoGives(i, j, Acker(i, j, r), n, Tail(i, r), [], Within(i, r), p,
             Outcome(Behind(i, j, r, 9, {}, map[]), [Send(i, ack)]), [ack]);
  }

  lemma Step12(i: Uuid, j: Uuid, r: string)
    requires i != j
    ensures Steps(S11(i, j, r), Deliver(i, j), S12(i, j, r), false)
  {
    var n, p, back := Behind(i, j, r, 9, {}, map[]), Packet(i, AcquiredMsg(r), 9), [Packet(j, AckMsg(r), 9)];
    TakesAcquired(j, i, 9, Ahead(i, j, r), map[r := {}], 9, r);
    assert [p] + [Packet(i, AckMsg(r), 11)] == Tail(i, r);
    DuoHears(i, j, Acker(i, j, r), n, [Packet(i, AckMsg(r), 11)], back, Within(i, r), p,
             Behind(i, j, r, 10, {}, map[r := i]));
  }

  lemma Step13(i: Uuid, j: Uuid, r: string)
    requires i != j
    ensures Steps(S12(i, j, r), Deliver(i, j), S13(i, j, r), false)
  {
    var n, p, back := Behind(i, j, r, 10, {}, map[r := i]), Packet(i, AckMsg(r), 11), [Packet(j, AckMsg(r), 9)];
    TakesAck(j, i, 10, Ahead(i, j, r), map[r := i], 11, r);
    assert [p] + [] == [p];
    DuoHears(i, j, Acker(i, j, r), n, [], back, Within(i, r), p, Behind(i, j, r, 12, {i}, map[r := i]));
  }

  lemma Step14(i: Uuid, j: Uuid, r: string) returns (t: Sys)
    requires i != j
    ensures Steps(S13(i, j, r), CallEnter(j, r, [i]), t, false)
    ensures (i, r) in t.entered && (j, r) in t.entered
  {
    var n, x, q := Behind(i, j, r, 12, {i}, map[r := i]), Within(i, r), Other(j, r);
    OneOrder(j, i, n);
    assert DropExpiredHeads(n, r, 0, Never) == n && HeadWithAllAcks(n, r);
    var back := [Packet(j, AckMsg(r), 9)];
    Swap(i, j, Acker(i, j, r), n, [], back, x);
    DuoEnters(j, i, n, Acker(i, j, r), back, [], x, r, n,
              Rest(0, Never, x.entered[(j, r) := q], x.grants[r := x.grants[r] + [q]]));
    t := Next(S13(i, j, r), CallEnter(j, r, [i]));
  }

  lemma FirstHalf(i: Uuid, j: Uuid, r: string)
    requires i != j
    ensures Reaches(S0(i, j), S7(i, j, r), false)
  {
    var s := S0(i, j);
    assert Run(s, [], s, false);
    Step1(i, j, r);
    Then(s, s, CallRequestLock(i, r, [j]), S1(i, j, r), false);
    Step2(i, j, r);
    Then(s, S1(i, j, r), Deliver(i, j), S2(i, j, r), false);
    Step3(i, j, r);
    Then(s, S2(i, j, r), CallReleaseLock(i, r, [j]), S4(i, j, r, 3), false);
    Step4(i, j, r, 3);
    Then(s, S4(i, j, r, 3), OtherSend(i), S4(i, j, r, 4), false);
    Step4(i, j, r, 4);
    Then(s, S4(i, j, r, 4), OtherSend(i), S4(i, j, r, 5), false);
    Step5(i, j, r);
    Then(s, S4(i, j, r, 5), CallRequestLock(i, r, [j]), S5(i, j, r), false);
    Step6(i, j, r);
    Then(s, S5(i, j, r), Deliver(j, i), S6(i, j, r), false);
    Step7(i, j, r);
    Then(s, S6(i, j, r), CallEnter(i, r, [j]), S7(i, j, r), false);
  }

  lemma SecondHalf(s: Sys, i: Uuid, j: Uuid, r: string)
    requires i != j && Reaches(s, S7(i, j, r), false)
    ensures Reaches(s, S13(i, j, r), false)
  {
    Step8(i, j, r);
    Then(s, S7(i, j, r), CallRequestLock(j, r, [i]), S8(i, j, r), false);
    Step9(i, j, r);
    Then(s, S8(i, j, r), Deliver(j, i), S9(i, j, r), false);
    Step10(i, j, r);
    Then(s, S9(i, j, r), Deliver(i, j), S10(i, j, r), false);
    Step11(i, j, r);
    Then(s, S10(i, j, r), Deliver(i, j), S11(i, j, r), false);
    Step12(i, j, r);
    Then(s, S11(i, j, r), Deliver(i, j), S12(i, j, r), false);
    Step13(i, j, r);
    Then(s, S12(i, j, r), Deliver(i, j), S13(i, j, r), false);
  }

  /** Without the discipline of MayRequest two nodes can be inside even if nothing ever expires. */
  lemma TwoInsideByStaleAck(i: Uuid, j: Uuid, r: string) returns (s: Sys, es: seq<Event>, t: Sys)
    requires i != j
    ensures Init(s) && s.limit == Never && Run(s, es, t, false)
    ensures (i, r) in t.entered && (j, r) in t.entered
  {
    s := S0(i, j);
    StartsFresh(i, j, IDLE);
    FirstHalf(i, j, r);
    SecondHalf(s, i, j, r);
    t := Step14(i, j, r);
    Then(s, S13(i, j, r), CallEnter(j, r, [i]), t, false);
    es :| Run(s, es, t, false);
  }
}
