/** The clock condition over every run of the lock protocol: what happened before has the smaller logical
    time, across nodes; and with it, causally ordered requests are granted in their order. */
module LockCausality {
  import opened Uuids
  import opened Lamport
  import opened LockState
  import opened LockSystem
  import opened LockSafety
  import opened LockTheorems
  import opened LockStamps

  // ----- happened before -----

  /** The state before event `k` of a run. */
  ghost function At(s: Sys, es: seq<Event>, k: nat): Sys
    requires k <= |es|
  {
    if k == 0 then s
    else
      var t := At(s, es, k - 1);
      if Enabled(t, es[k - 1]) then Next(t, es[k - 1]) else t
  }

  lemma {:induction false} AtLater(s: Sys, es: seq<Event>, k: nat)
    requires es != [] && Enabled(s, es[0]) && k < |es|
    ensures At(s, es, k + 1) == At(Next(s, es[0]), es[1..], k)
  {
    if k == 0 {
      assert At(s, es, 0) == s;
    } else {
      AtLater(s, es, k - 1);
    }
  }

  lemma {:induction false} RunAt(s: Sys, es: seq<Event>, t: Sys, disciplined: bool, k: nat)
    requires Run(s, es, t, disciplined) && k <= |es|
    ensures k < |es| ==> Enabled(At(s, es, k), es[k]) && (disciplined ==> Disciplined(At(s, es, k), es[k]))
    ensures At(s, es, |es|) == t
    decreases |es|
  {
    if es != [] {
      var s' := Next(s, es[0]);
      AtLater(s, es, |es| - 1);
      RunAt(s', es[1..], t, disciplined, if k == 0 then 0 else k - 1);
      if k > 0 {
        AtLater(s, es, k - 1);
      }
    }
  }

  lemma StepOnward(s: Sys, e: Event)
    requires Linked(s) && Enabled(s, e)
    ensures Onward(s, Next(s, e))
  {
    if !e.TimePasses? {
      EventStamps(s, e);
    }
  }

  lemma OnwardAgain(u: Sys, v: Sys, w: Sys)
    requires Onward(u, v) && Onward(v, w)
    ensures Onward(u, w)
  {
    assert forall i | i in u.nodes :: Clock(u, i) <= Clock(v, i);
  }

  lemma {:induction false} ClocksOnward(s: Sys, es: seq<Event>, t: Sys, disciplined: bool, j: nat, k: nat)
    requires Linked(s) && Run(s, es, t, disciplined) && j <= k <= |es|
    ensures Onward(At(s, es, j), At(s, es, k))
    decreases k
  {
    if k > 0 {
      RunAt(s, es, t, disciplined, k - 1);
      ClocksOnward(s, es, t, disciplined, if j < k then j else k - 1, k - 1);
      StepOnward(At(s, es, k - 1), es[k - 1]);
      if j < k {
        OnwardAgain(At(s, es, j), At(s, es, k - 1), At(s, es, k));
      }
    }
  }

  /** Event `x` is directly before event `y`: they are at one node, or `y` takes what `x` sent. */
  ghost predicate DirectlyBefore(s: Sys, es: seq<Event>, x: nat, y: nat) {
    && x < y < |es| && !es[x].TimePasses? && !es[y].TimePasses?
    && (es[x].i == es[y].i
        || exists p :: Sends(At(s, es, x), At(s, es, x + 1), es[x].i, es[y].i, p) && Takes(At(s, es, y), es[y], es[x].i, p))
  }

  ghost predicate Chain(s: Sys, es: seq<Event>, c: seq<nat>) {
    forall k | 0 <= k < |c| - 1 :: DirectlyBefore(s, es, c[k], c[k + 1])
  }

  /** Lamport's relation between the events `a` and `b` of a run. */
  ghost predicate HappenedBefore(s: Sys, es: seq<Event>, a: nat, b: nat) {
    exists c :: |c| >= 2 && c[0] == a && c[|c| - 1] == b && Chain(s, es, c)
  }

  /** Event `a` of the run happens at a node. */
  ghost predicate Happens(s: Sys, es: seq<Event>, a: nat) {
    a < |es| && !es[a].TimePasses? && Enabled(At(s, es, a), es[a])
  }

  /** The logical time of event `a`. */
  ghost function TimeOf(s: Sys, es: seq<Event>, a: nat): int
    requires Happens(s, es, a)
  {
    Reading(At(s, es, a), es[a])
  }

  ghost predicate MovesAt(s: Sys, es: seq<Event>, a: nat)
    requires Happens(s, es, a)
  {
    Moves(At(s, es, a), es[a])
  }

  lemma EventAt(s: Sys, es: seq<Event>, t: Sys, disciplined: bool, x: nat)
    requires Linked(s) && Run(s, es, t, disciplined) && x < |es| && !es[x].TimePasses?
    ensures Linked(At(s, es, x)) && Enabled(At(s, es, x), es[x]) && At(s, es, x + 1) == Next(At(s, es, x), es[x])
    ensures StampOk(At(s, es, x), At(s, es, x + 1), es[x].i, Stamp(At(s, es, x), es[x]))
    ensures Onward(At(s, es, x), At(s, es, x + 1))
    ensures es[x].i in s.nodes && At(s, es, x).nodes.Keys == s.nodes.Keys
  {
    RunAt(s, es, t, disciplined, x);
    ClocksOnward(s, es, t, disciplined, 0, x);
    assert Onward(At(s, es, 0), At(s, es, x));
    EventStamps(At(s, es, x), es[x]);
  }

  /** The clock of `i` has passed `base` after the step, and before `stamp` if the step moves it. */
  ghost predicate Passed(v: Sys, w: Sys, i: Uuid, stamp: int, base: int, strict: bool) {
    && i in w.nodes && base <= Clock(w, i)
    && (Ticks(v, w, i) ==> base <= stamp && (strict ==> base < stamp))
  }

  ghost predicate PassedAt(s: Sys, es: seq<Event>, x: nat, base: int, strict: bool) {
    && x < |es| && !es[x].TimePasses? && Enabled(At(s, es, x), es[x])
    && Passed(At(s, es, x), At(s, es, x + 1), es[x].i, Stamp(At(s, es, x), es[x]), base, strict)
  }

  lemma LaterPassed(u: Sys, v: Sys, w: Sys, i: Uuid, base: int, stamp: int)
    requires Onward(u, v) && i in u.nodes && base <= Clock(u, i) && StampOk(v, w, i, stamp) && Clock(v, i) <= Clock(w, i)
    ensures Passed(v, w, i, stamp, base, true)
  {
    assert Clock(u, i) <= Clock(v, i);
  }

  lemma SameNodeStep(s: Sys, es: seq<Event>, t: Sys, disciplined: bool, j: nat, y: nat, base: int)
    requires Linked(s) && Run(s, es, t, disciplined) && j <= y < |es| && !es[y].TimePasses?
    requires es[y].i in At(s, es, j).nodes && base <= Clock(At(s, es, j), es[y].i)
    ensures PassedAt(s, es, y, base, true)
  {
    RunAt(s, es, t, disciplined, y);
    ClocksOnward(s, es, t, disciplined, j, y);
    StepPassed(At(s, es, j), At(s, es, y), es[y], base);
  }

  lemma StepPassed(u: Sys, v: Sys, e: Event, base: int)
    requires Onward(u, v) && Enabled(v, e) && !e.TimePasses? && e.i in u.nodes && base <= Clock(u, e.i)
    ensures Passed(v, Next(v, e), e.i, Stamp(v, e), base, true)
  {
    EventStamps(v, e);
    LaterPassed(u, v, Next(v, e), e.i, base, Stamp(v, e));
  }

  lemma MessageStep(s: Sys, es: seq<Event>, t: Sys, disciplined: bool, x: nat, y: nat, p: Packet, base: int, strict: bool)
    requires Linked(s) && Run(s, es, t, disciplined) && x < y < |es| && !es[x].TimePasses? && !es[y].TimePasses?
    requires Sends(At(s, es, x), At(s, es, x + 1), es[x].i, es[y].i, p) && Takes(At(s, es, y), es[y], es[x].i, p)
    requires PassedAt(s, es, x, base, strict)
    ensures PassedAt(s, es, y, base, true)
  {
    EventAt(s, es, t, disciplined, x);
    EventAt(s, es, t, disciplined, y);
    TakesLater(At(s, es, y), es[y], es[x].i, p);
  }

  lemma DirectPassed(s: Sys, es: seq<Event>, t: Sys, disciplined: bool, x: nat, y: nat, base: int, strict: bool)
    requires Linked(s) && Run(s, es, t, disciplined) && DirectlyBefore(s, es, x, y) && PassedAt(s, es, x, base, strict)
    ensures PassedAt(s, es, y, base, true)
  {
    if es[x].i == es[y].i {
      SameNodeStep(s, es, t, disciplined, x + 1, y, base);
    } else {
      var p :| Sends(At(s, es, x), At(s, es, x + 1), es[x].i, es[y].i, p) && Takes(At(s, es, y), es[y], es[x].i, p);
      MessageStep(s, es, t, disciplined, x, y, p, base, strict);
    }
  }

  lemma StartPassed(s: Sys, es: seq<Event>, t: Sys, disciplined: bool, a: nat)
    requires Linked(s) && Run(s, es, t, disciplined) && Happens(s, es, a)
    ensures PassedAt(s, es, a, TimeOf(s, es, a), false)
  {
    EventAt(s, es, t, disciplined, a);
    TicksIff(At(s, es, a), es[a]);
  }

  /** Every event of a chain happens. */
  lemma ChainHappens(s: Sys, es: seq<Event>, t: Sys, disciplined: bool, c: seq<nat>, k: nat)
    requires Run(s, es, t, disciplined) && Chain(s, es, c) && k < |c| && |c| >= 2
    ensures Happens(s, es, c[k])
  {
    assert k < |c| - 1 ==> DirectlyBefore(s, es, c[k], c[k + 1]);
    assert k > 0 ==> DirectlyBefore(s, es, c[k - 1], c[k - 1 + 1]);
    RunAt(s, es, t, disciplined, c[k]);
  }

  lemma {:induction false} ChainPassed(s: Sys, es: seq<Event>, t: Sys, disciplined: bool, c: seq<nat>, k: nat)
    requires Linked(s) && Run(s, es, t, disciplined) && Chain(s, es, c) && k < |c| && Happens(s, es, c[0])
    ensures PassedAt(s, es, c[k], TimeOf(s, es, c[0]), k > 0)
  {
    if k == 0 {
      StartPassed(s, es, t, disciplined, c[0]);
    } else {
      ChainPassed(s, es, t, disciplined, c, k - 1);
      assert DirectlyBefore(s, es, c[k - 1], c[k - 1 + 1]);
      DirectPassed(s, es, t, disciplined, c[k - 1], c[k], TimeOf(s, es, c[0]), k > 1);
    }
  }

  lemma InitLinked(s: Sys)
    requires Init(s)
    ensures Linked(s)
  {
  }

  /** Once the clock has passed `base`, the reading has. */
  lemma PassedReading(s: Sys, es: seq<Event>, t: Sys, disciplined: bool, b: nat, base: int)
    requires Linked(s) && Run(s, es, t, disciplined) && Happens(s, es, b) && PassedAt(s, es, b, base, true)
    ensures base <= TimeOf(s, es, b) && (MovesAt(s, es, b) ==> base < TimeOf(s, es, b))
  {
    EventAt(s, es, t, disciplined, b);
    TicksIff(At(s, es, b), es[b]);
  }

  /** The clock condition, in every run, disciplined or not: of two events, the one that happened before does
      not have the larger logical time, and has the smaller one if the other moves its clock. */
  lemma ClockCondition(s: Sys, es: seq<Event>, t: Sys, disciplined: bool, a: nat, b: nat)
    requires Init(s) && Run(s, es, t, disciplined) && HappenedBefore(s, es, a, b)
    ensures Happens(s, es, a) && Happens(s, es, b) && TimeOf(s, es, a) <= TimeOf(s, es, b)
    ensures MovesAt(s, es, b) ==> TimeOf(s, es, a) < TimeOf(s, es, b)
  {
    InitLinked(s);
    var c :| |c| >= 2 && c[0] == a && c[|c| - 1] == b && Chain(s, es, c);
    ChainHappens(s, es, t, disciplined, c, 0);
    ChainHappens(s, es, t, disciplined, c, |c| - 1);
    ChainPassed(s, es, t, disciplined, c, |c| - 1);
    PassedReading(s, es, t, disciplined, b, TimeOf(s, es, a));
  }

  // ----- where it fails -----

  /** Two events of one node, one right after the other, that leave the clock alone have one logical time. */
  lemma UnmovedPair(s: Sys, es: seq<Event>, t: Sys, disciplined: bool, a: nat)
    requires Init(s) && Run(s, es, t, disciplined) && Happens(s, es, a) && Happens(s, es, a + 1)
    requires es[a].i == es[a + 1].i && !MovesAt(s, es, a) && !MovesAt(s, es, a + 1)
    ensures HappenedBefore(s, es, a, a + 1) && TimeOf(s, es, a) == TimeOf(s, es, a + 1)
  {
    InitLinked(s);
    var c := [a, a + 1];
    assert DirectlyBefore(s, es, c[0], c[1]);
    assert Chain(s, es, c) && c[|c| - 1] == a + 1;
    EventAt(s, es, t, disciplined, a);
    TicksIff(At(s, es, a), es[a]);
  }

  lemma NothingToEnter(n: NodeState, r: string, now: int, limit: Limit)
    requires n.lockQueue == map[]
    ensures DropExpiredHeads(n, r, now, limit) == n && !HeadWithAllAcks(n, r)
  {
    assert Queue(n, r) == [];
  }

  /** A node that tries to enter twice with nothing queued: from every initial state, for every node. */
  lemma EnterTwice(s: Sys, i: Uuid, r: string, order: seq<Uuid>) returns (es: seq<Event>)
    requires Init(s) && i in s.nodes && Enumerates(order, s.nodes[i].peers.Keys)
    ensures Run(s, es, At(s, es, |es|), true) && HappenedBefore(s, es, 0, 1)
    ensures Happens(s, es, 0) && Happens(s, es, 1) && TimeOf(s, es, 0) == TimeOf(s, es, 1)
  {
    var e := CallEnter(i, r, order);
    es := [e, e];
    NothingToEnter(s.nodes[i], r, s.now, s.limit);
    var none: seq<Event> := [];
    var s1 := Next(s, e);
    assert s1.nodes[i] == s.nodes[i] && s1.now == s.now && s1.limit == s.limit;
    var s2 := Next(s1, e);
    assert At(s, es, 0) == s;
    assert At(s, es, 0 + 1) == s1;
    assert [e][1..] == none && Run(s2, none, s2, true);
    assert es[1..] == [e] && Run(s1, [e], s2, true);
    assert Run(s, es, s2, true);
    RunAt(s, es, s2, true, 0);
    UnmovedPair(s, es, s2, true, 0);
  }

  ghost predicate ClockHolds(s: Sys, es: seq<Event>, t: Sys, disciplined: bool, a: nat, b: nat, moving: bool) {
    Init(s) && Run(s, es, t, disciplined) && HappenedBefore(s, es, a, b) && Happens(s, es, a) && Happens(s, es, b) ==>
      (moving ==> MovesAt(s, es, b)) ==> TimeOf(s, es, a) < TimeOf(s, es, b)
  }

  function Alone(): Sys {
    var n := NodeState(NIL, 0, map[], 0, map[], map[], map[], map[]);
    Sys(map[NIL := n], map[(NIL, NIL) := []], 0, Never, map[], map[])
  }

  /** The clock condition holds of all pairs of all runs exactly when it is asked of pairs whose later event
      moves its clock. */
  lemma ClockConditionIff(disciplined: bool, moving: bool)
    ensures (forall s, es, t, a, b :: ClockHolds(s, es, t, disciplined, a, b, moving)) <==> moving
  {
    if moving {
      forall s, es, t, a, b
        ensures ClockHolds(s, es, t, disciplined, a, b, moving)
      {
        if Init(s) && Run(s, es, t, disciplined) && HappenedBefore(s, es, a, b) {
          ClockCondition(s, es, t, disciplined, a, b);
        }
      }
    } else {
      var s := Alone();
      assert Init(s) && Enumerates([], s.nodes[NIL].peers.Keys);
      var es := EnterTwice(s, NIL, "", []);
      if !disciplined {
        AnyRun(s, es, At(s, es, |es|));
      }
      assert !ClockHolds(s, es, At(s, es, |es|), disciplined, 0, 1, moving);
    }
  }

  // ----- the order of the grants -----

  /** Event `a` makes the request `q` on `r`. */
  ghost predicate Makes(s: Sys, es: seq<Event>, a: nat, r: string, q: LockRequest) {
    && a < |es| && es[a].CallRequestLock? && es[a].r == r && es[a].i in At(s, es, a).nodes
    && q == NewRequest(At(s, es, a).nodes[es[a].i], r, At(s, es, a).now)
  }

  /** Event `h` handles the request `p`. */
  ghost predicate Handles(s: Sys, es: seq<Event>, h: nat, p: LockRequest) {
    && h < |es| && es[h].Deliver?
    && exists pk: Packet :: pk.body == RequestMsg(p) && Takes(At(s, es, h), es[h], es[h].from, pk)
  }

  lemma MakesStamp(s: Sys, es: seq<Event>, t: Sys, disciplined: bool, a: nat, r: string, q: LockRequest)
    requires Linked(s) && Run(s, es, t, disciplined) && Makes(s, es, a, r, q)
    ensures Happens(s, es, a) && MovesAt(s, es, a) && TimeOf(s, es, a) == q.logicalTime
  {
    RunAt(s, es, t, disciplined, a);
  }

  lemma {:induction false} AheadAt(s: Sys, es: seq<Event>, t: Sys, disciplined: bool, k: nat)
    requires Linked(s) && AllAhead(s) && Run(s, es, t, disciplined) && k <= |es|
    ensures AllAhead(At(s, es, k))
  {
    if k > 0 {
      AheadAt(s, es, t, disciplined, k - 1);
      RunAt(s, es, t, disciplined, k - 1);
      ClocksOnward(s, es, t, disciplined, 0, k - 1);
      StepAhead(At(s, es, k - 1), es[k - 1]);
    }
  }

  /** A handled request is older than its handling. */
  lemma HandledOlder(s: Sys, es: seq<Event>, t: Sys, disciplined: bool, h: nat, p: LockRequest)
    requires Linked(s) && AllAhead(s) && Run(s, es, t, disciplined) && Handles(s, es, h, p)
    ensures Happens(s, es, h) && p.logicalTime < TimeOf(s, es, h)
  {
    AheadAt(s, es, t, disciplined, h);
    EventAt(s, es, t, disciplined, h);
    var pk: Packet :| pk.body == RequestMsg(p) && Takes(At(s, es, h), es[h], es[h].from, pk);
    TakesLater(At(s, es, h), es[h], es[h].from, pk);
    assert pk in Link(At(s, es, h), es[h].from, es[h].i) && Ahead(pk);
  }

  /** What was handled before a request was made, at any node, has the smaller time, in every run. */
  lemma HandledBefore(s: Sys, es: seq<Event>, t: Sys, disciplined: bool,
                      h: nat, p: LockRequest, b: nat, r: string, q: LockRequest)
    requires Init(s) && Run(s, es, t, disciplined)
    requires Handles(s, es, h, p) && Makes(s, es, b, r, q) && HappenedBefore(s, es, h, b)
    ensures p.logicalTime < q.logicalTime
  {
    InitLinked(s);
    assert forall x, y | x in s.nodes && y in s.nodes :: Link(s, x, y) == [];
    HandledOlder(s, es, t, disciplined, h, p);
    MakesStamp(s, es, t, disciplined, b, r, q);
    ClockCondition(s, es, t, disciplined, h, b);
  }

  lemma AscendingPlaces(gs: seq<LockRequest>, x: nat, y: nat)
    requires Ascending(gs) && x < |gs| && y < |gs| && gs[x].logicalTime < gs[y].logicalTime
    ensures x < y
  {
  }

  lemma LaterInv(s: Sys, es: seq<Event>, t: Sys, later: seq<Event>, u: Sys)
    requires Inv(s) && Run(s, es, t, true) && Run(t, later, u, true)
    ensures Inv(u)
  {
    RunInv(s, es, t);
    RunInv(t, later, u);
  }

  /** Of two requests on a resource, the one made before the other, by any chain of messages, is granted
      before it, if both are. */
  lemma CausalOrderOfGrants(s: Sys, es: seq<Event>, t: Sys, later: seq<Event>, u: Sys,
                            a: nat, p: LockRequest, b: nat, q: LockRequest, r: string, x: nat, y: nat)
    requires Init(s) && Run(s, es, t, true) && Run(t, later, u, true)
    requires Makes(s, es, a, r, p) && Makes(s, es, b, r, q) && HappenedBefore(s, es, a, b)
    requires x < |Grants(u, r)| && y < |Grants(u, r)| && Grants(u, r)[x] == p && Grants(u, r)[y] == q
    ensures x < y
  {
    InitInv(s);
    InitLinked(s);
    MakesStamp(s, es, t, true, a, r, p);
    MakesStamp(s, es, t, true, b, r, q);
    ClockCondition(s, es, t, true, a, b);
    LaterInv(s, es, t, later, u);
    assert GrantsOkAt(u, r);
    AscendingPlaces(Grants(u, r), x, y);
  }

  /** A request made after another was handled, at the same node or in consequence of it, never overtakes
      it: if both are granted, it is granted later. */
  lemma NoOvertaking(s: Sys, es: seq<Event>, t: Sys, later: seq<Event>, u: Sys,
                     h: nat, p: LockRequest, b: nat, q: LockRequest, r: string, x: nat, y: nat)
    requires Init(s) && Run(s, es, t, true) && Run(t, later, u, true)
    requires Handles(s, es, h, p) && Makes(s, es, b, r, q) && HappenedBefore(s, es, h, b)
    requires x < |Grants(u, r)| && y < |Grants(u, r)| && Grants(u, r)[x] == p && Grants(u, r)[y] == q
    ensures x < y
  {
    HandledBefore(s, es, t, true, h, p, b, r, q);
    InitInv(s);
    LaterInv(s, es, t, later, u);
    assert GrantsOkAt(u, r);
    AscendingPlaces(Grants(u, r), x, y);
  }
}
