/** Runs that show why the election needs its two conditions: the election timeout longer than the
    coordinator wait, and no live node of priority -1. */
module ElectionRaces {
  import opened Uuids
  import opened Election
  import opened ElectionSystem
  import opened ElectionTheorems

  // ----- two nodes: `h` of priority 2 and `l` of priority 1 -----

  function High(h: Uuid, l: Uuid, role: Role, wait: Wait): Elector {
    Elector(h, 2, map[l := 1], map[l := Storage], role,
            !wait.Idle?, role == Master || !wait.Idle?, wait.AwaitCancel?, wait)
  }

  /** `told`: the node has heard the claim of `h`. */
  function Low(h: Uuid, l: Uuid, role: Role, wait: Wait, told: bool): Elector {
    Elector(l, 1, map[h := 2], map[h := if told then Master else Storage], role,
            !wait.Idle?, !wait.Idle?, wait.AwaitCancel?, wait)
  }

  function Two(h: Uuid, l: Uuid, high: Elector, low: Elector, bag: multiset<Message>, now: int, timers: Timers): Sys {
    Sys(map[h := high, l := low], bag, now, timers)
  }

  /** The messages an outcome of one of the two adds to the bag. */
  lemma PostTwo(h: Uuid, l: Uuid, high: Elector, low: Elector, bag: multiset<Message>, now: int, timers: Timers,
                i: Uuid, o: Outcome)
    requires h != l && i in {h, l} && forall m | m in o.out :: m.to in {h, l}
    ensures Post(Two(h, l, high, low, bag, now, timers), i, o)
            == Two(h, l, if i == h then o.elector else high, if i == l then o.elector else low,
                   bag + multiset(o.out), now, timers)
  {
    var s := Two(h, l, high, low, bag, now, timers);
    assert (set m | m in o.out && m.to in s.electors) == o.out;
  }

  ghost predicate Reaches(s: Sys, t: Sys) {
    exists es :: Run(s, es, t)
  }

  lemma {:induction false} RunJoin(s: Sys, es: seq<Event>, t: Sys, more: seq<Event>, u: Sys)
    requires Run(s, es, t) && Run(t, more, u)
    ensures Run(s, es + more, u)
    decreases |es|
  {
    if es == [] {
      assert es + more == more;
    } else {
      RunJoin(Next(s, es[0]), es[1..], t, more, u);
      assert (es + more)[1..] == es[1..] + more;
    }
  }

  lemma Then(s: Sys, t: Sys, u: Sys)
    requires Reaches(s, t) && Reaches(t, u)
    ensures Reaches(s, u)
  {
    var es :| Run(s, es, t);
    var more :| Run(t, more, u);
    RunJoin(s, es, t, more, u);
  }

  lemma RunTwo(s: Sys, e: Event, f: Event, u: Sys)
    requires Enabled(s, e) && Enabled(Next(s, e), f) && Next(Next(s, e), f) == u
    ensures Reaches(s, u)
  {
    assert [e, f][1..] == [f] && [f][1..] == [];
    assert Run(Next(s, e), [f], u);
    assert Run(s, [e, f], u);
  }

  lemma DeliverTwo(h: Uuid, l: Uuid, high: Elector, low: Elector, bag: multiset<Message>, now: int, timers: Timers,
                   m: Message, o: Outcome)
    requires h != l && m.to in {h, l} && o == Handle(if m.to == h then high else low, m, now, timers)
    requires forall m' | m' in o.out :: m'.to in {h, l}
    ensures var s := Two(h, l, high, low, bag + multiset{m}, now, timers);
            Enabled(s, Deliver(m)) && Next(s, Deliver(m))
            == Two(h, l, if m.to == h then o.elector else high, if m.to == l then o.elector else low,
                   bag + multiset(o.out), now, timers)
  {
    var s := Two(h, l, high, low, bag + multiset{m}, now, timers);
    assert s.bag - multiset{m} == bag;
    assert s.(bag := bag) == Two(h, l, high, low, bag, now, timers);
    PostTwo(h, l, high, low, bag, now, timers, m.to, o);
  }

  // ----- the race between the two timers -----

  function Fresh(h: Uuid, l: Uuid, timers: Timers): Sys {
    Two(h, l, High(h, l, Storage, Idle), Low(h, l, Storage, Idle, false), multiset{}, 0, timers)
  }

  function Waiting(h: Uuid, l: Uuid, timers: Timers): Elector {
    High(h, l, Storage, AwaitCancel(timers.coordinatorWaitTimeout, true))
  }

  function Claiming(h: Uuid, l: Uuid, timers: Timers): Elector {
    Low(h, l, Storage, AwaitCancel(timers.electionTimeout + timers.coordinatorWaitTimeout, false), true)
  }

  function Claimed(h: Uuid, l: Uuid, timers: Timers): Sys {
    Two(h, l, Waiting(h, l, timers), Low(h, l, Storage, Idle, true), multiset{}, 0, timers)
  }

  function Asked(h: Uuid, l: Uuid, timers: Timers): Sys {
    Two(h, l, Waiting(h, l, timers), Low(h, l, Storage, AwaitOk(timers.electionTimeout), true),
        multiset{Message(l, h, ElectionMsg(1))}, timers.electionTimeout, timers)
  }

  function Ignored(h: Uuid, l: Uuid, timers: Timers): Sys {
    Two(h, l, Waiting(h, l, timers), Claiming(h, l, timers), multiset{Message(l, h, ElectionMsg(1))},
        timers.electionTimeout, timers)
  }

  function Answered(h: Uuid, l: Uuid, timers: Timers): Sys {
    Two(h, l, Waiting(h, l, timers), Claiming(h, l, timers), multiset{}, timers.electionTimeout, timers)
  }

  function HighWon(h: Uuid, l: Uuid, timers: Timers): Sys {
    Two(h, l, High(h, l, Master, Idle), Claiming(h, l, timers), multiset{}, timers.coordinatorWaitTimeout, timers)
  }

  function BothMasters(h: Uuid, l: Uuid, timers: Timers): Sys {
    Two(h, l, High(h, l, Master, Idle), Low(h, l, Master, Idle, true), multiset{},
        timers.electionTimeout + timers.coordinatorWaitTimeout, timers)
  }

  lemma LowHears(h: Uuid, l: Uuid)
    requires h != l
    ensures HandleCoordinator(Low(h, l, Storage, Idle, false), h) == Outcome(Low(h, l, Storage, Idle, true), {})
  {
    assert RolesAfter(map[h := Storage], h) == map[h := Master];
  }

  lemma HighStarts(h: Uuid, l: Uuid, timers: Timers)
    requires h != l
    ensures StartElection(High(h, l, Storage, Idle), 0, timers)
            == Outcome(Waiting(h, l, timers), {Message(h, l, CoordinatorMsg)})
  {
    assert ToAll(h, {l}, CoordinatorMsg) == {Message(h, l, CoordinatorMsg)};
  }

  /** `h` claims the role and `l` hears it. */
  lemma RaceClaim(h: Uuid, l: Uuid, timers: Timers)
    requires h != l
    ensures Reaches(Fresh(h, l, timers), Claimed(h, l, timers))
  {
    var claim := Message(h, l, CoordinatorMsg);
    var high, low := High(h, l, Storage, Idle), Low(h, l, Storage, Idle, false);
    HighStarts(h, l, timers);
    PostTwo(h, l, high, low, multiset{}, 0, timers, h, Outcome(Waiting(h, l, timers), {claim}));
    DeliverTwo(h, l, Waiting(h, l, timers), low, multiset{}, 0, timers, claim, HandleCoordinator(low, h));
    LowHears(h, l);
    RunTwo(Fresh(h, l, timers), Start(h), Deliver(claim), Claimed(h, l, timers));
  }

  /** `l` asks for an election and hears nothing until its timeout. */
  lemma RaceAsk(h: Uuid, l: Uuid, timers: Timers)
    requires h != l && 0 <= timers.electionTimeout <= timers.coordinatorWaitTimeout
    ensures Reaches(Claimed(h, l, timers), Asked(h, l, timers))
  {
    var low := Low(h, l, Storage, Idle, true);
    assert Higher(low) == {h};
    assert StartElection(low, 0, timers).out == {Message(l, h, ElectionMsg(1))};
    PostTwo(h, l, Waiting(h, l, timers), low, multiset{}, 0, timers, l, StartElection(low, 0, timers));
    RunTwo(Claimed(h, l, timers), Start(l), Tick(timers.electionTimeout), Asked(h, l, timers));
  }

  lemma LowClaims(h: Uuid, l: Uuid, timers: Timers)
    requires h != l
    ensures Fired(Low(h, l, Storage, AwaitOk(timers.electionTimeout), true), timers.electionTimeout, timers)
            == Outcome(Claiming(h, l, timers), {Message(l, h, CoordinatorMsg)})
  {
    assert ToAll(l, {h}, CoordinatorMsg) == {Message(l, h, CoordinatorMsg)};
  }

  /** `l` claims the role, and `h`, not yet Master, ignores the claim. */
  lemma RaceIgnore(h: Uuid, l: Uuid, timers: Timers)
    requires h != l
    ensures Reaches(Asked(h, l, timers), Ignored(h, l, timers))
  {
    var now := timers.electionTimeout;
    var ask, claim := Message(l, h, ElectionMsg(1)), Message(l, h, CoordinatorMsg);
    var high, low := Waiting(h, l, timers), Low(h, l, Storage, AwaitOk(now), true);
    LowClaims(h, l, timers);
    PostTwo(h, l, high, low, multiset{ask}, now, timers, l, Outcome(Claiming(h, l, timers), {claim}));
    DeliverTwo(h, l, high, Claiming(h, l, timers), multiset{ask}, now, timers, claim, HandleCoordinator(high, l));
    assert multiset{ask} + multiset({claim}) == multiset{ask} + multiset{claim};
    RunTwo(Asked(h, l, timers), Timeout(l), Deliver(claim), Ignored(h, l, timers));
  }

  /** The answer to the question comes too late. */
  lemma RaceAnswer(h: Uuid, l: Uuid, timers: Timers)
    requires h != l
    ensures Reaches(Ignored(h, l, timers), Answered(h, l, timers))
  {
    var high, low, now := Waiting(h, l, timers), Claiming(h, l, timers), timers.electionTimeout;
    var ask, ok := Message(l, h, ElectionMsg(1)), Message(h, l, OkMsg);
    DeliverTwo(h, l, high, low, multiset{}, now, timers, ask, Handle(high, ask, now, timers));
    DeliverTwo(h, l, high, low, multiset{}, now, timers, ok, Handle(low, ok, now, timers));
    assert multiset{} + multiset{ask} == multiset{ask} && multiset{} + multiset({ok}) == multiset{ok};
    RunTwo(Ignored(h, l, timers), Deliver(ask), Deliver(ok), Answered(h, l, timers));
  }

  /** Both waits end without a cancel. */
  lemma RaceHighWins(h: Uuid, l: Uuid, timers: Timers)
    requires h != l && 0 <= timers.electionTimeout <= timers.coordinatorWaitTimeout
    ensures Reaches(Answered(h, l, timers), HighWon(h, l, timers))
  {
    var high, low, w := Waiting(h, l, timers), Claiming(h, l, timers), timers.coordinatorWaitTimeout;
    PostTwo(h, l, high, low, multiset{}, w, timers, h, Fired(high, w, timers));
    RunTwo(Answered(h, l, timers), Tick(w), Timeout(h), HighWon(h, l, timers));
  }

  lemma RaceLowWins(h: Uuid, l: Uuid, timers: Timers)
    requires h != l && 0 <= timers.electionTimeout
    ensures Reaches(HighWon(h, l, timers), BothMasters(h, l, timers))
  {
    var high, low := High(h, l, Master, Idle), Claiming(h, l, timers);
    var end := timers.electionTimeout + timers.coordinatorWaitTimeout;
    PostTwo(h, l, high, low, multiset{}, end, timers, l, Fired(low, end, timers));
    RunTwo(HighWon(h, l, timers), Tick(end), Timeout(l), BothMasters(h, l, timers));
  }

  lemma RaceRuns(h: Uuid, l: Uuid, timers: Timers)
    requires h != l && 0 <= timers.electionTimeout <= timers.coordinatorWaitTimeout
    ensures Reaches(Fresh(h, l, timers), BothMasters(h, l, timers))
  {
    var s := Fresh(h, l, timers);
    RaceClaim(h, l, timers);
    RaceAsk(h, l, timers);
    Then(s, Claimed(h, l, timers), Asked(h, l, timers));
    RaceIgnore(h, l, timers);
    Then(s, Asked(h, l, timers), Ignored(h, l, timers));
    RaceAnswer(h, l, timers);
    Then(s, Ignored(h, l, timers), Answered(h, l, timers));
    RaceHighWins(h, l, timers);
    Then(s, Answered(h, l, timers), HighWon(h, l, timers));
    RaceLowWins(h, l, timers);
    Then(s, HighWon(h, l, timers), BothMasters(h, l, timers));
  }

  lemma FreshStarts(h: Uuid, l: Uuid, timers: Timers)
    requires h != l && 0 <= timers.electionTimeout && 0 <= timers.coordinatorWaitTimeout
    ensures Starts(Fresh(h, l, timers), h) && !OnlyMaster(BothMasters(h, l, timers), h)
  {
    var s := Fresh(h, l, timers);
    assert s.electors.Keys == {h, l};
    assert Shape(s);
    assert Highest(s, h);
    assert BothMasters(h, l, timers).electors[l].role == Master;
  }

  /** With an election timeout no longer than the coordinator wait, two nodes end up as Master with no
      message left that could demote one. */
  lemma TwoMasters(h: Uuid, l: Uuid, timers: Timers) returns (s: Sys, es: seq<Event>, t: Sys)
    requires h != l && 0 <= timers.electionTimeout <= timers.coordinatorWaitTimeout
    ensures s.timers == timers && Starts(s, h) && Run(s, es, t) && t.bag == multiset{}
    ensures h in t.electors && t.electors[h].role == Master && !OnlyMaster(t, h)
  {
    FreshStarts(h, l, timers);
    RaceRuns(h, l, timers);
    s, t := Fresh(h, l, timers), BothMasters(h, l, timers);
    es :| Run(s, es, t);
  }

  ghost predicate LeavesOneMaster(s: Sys, es: seq<Event>, t: Sys, h: Uuid) {
    Starts(s, h) && Run(s, es, t) && h in t.electors ==>
      t.electors[h].role == Master && t.bag == multiset{} ==> OnlyMaster(t, h)
  }

  /** The highest node ends up as the only Master in every run exactly when the election timeout is
      the longer one; 3000 and 500 are such timers. */
  lemma SoleMasterIffOrdered(timers: Timers)
    requires 0 <= timers.electionTimeout && 0 <= timers.coordinatorWaitTimeout
    ensures (forall s: Sys, es, t, h | s.timers == timers :: LeavesOneMaster(s, es, t, h)) <==> Ordered(timers)
    ensures Ordered(TIMERS)
  {
    if Ordered(timers) {
      forall s: Sys, es, t, h | s.timers == timers
        ensures LeavesOneMaster(s, es, t, h)
      {
        if Starts(s, h) && Run(s, es, t) && h in t.electors && t.electors[h].role == Master && t.bag == multiset{} {
          SoleMaster(s, es, t, h);
        }
      }
    } else {
      var l: Uuid := RawUuid([1, 0, 0, 0, 0, 0, 0, 0, 0, 0, 0, 0, 0, 0, 0, 0]);
      assert NIL.bytes[0] != l.bytes[0];
      var s, es, t := TwoMasters(NIL, l, timers);
      assert !LeavesOneMaster(s, es, t, NIL);
    }
  }

  // ----- the priority that stands for an unknown sender -----

  ghost predicate Outranks(s: Sys, h: Uuid) {
    h in s.electors && forall i | i in s.electors && i != h :: s.electors[i].priority < s.electors[h].priority
  }

  ghost predicate NeverDemoted(s: Sys, h: Uuid) {
    forall es, t | Run(s, es, t) :: h in t.electors && t.electors[h].role == Master
  }

  /** A node of priority -1 asks for an election and waits in vain. */
  lemma UnknownAsks(s: Sys, h: Uuid, l: Uuid)
    requires Init(s) && Outranks(s, h) && l in s.electors && l != h && s.electors[l].priority == -1
    ensures var d := s.now + s.timers.electionTimeout;
            var t := Next(s, Start(l));
            && t.electors == s.electors[l := t.electors[l]]
            && t.electors[l].wait == AwaitOk(d) && t.electors[l].id == l && t.electors[l].peers == s.electors[l].peers
            && t.now == s.now && t.timers == s.timers && Enabled(t, Tick(d))
  {
    assert h in Higher(s.electors[l]);
    var t := Next(s, Start(l));
    assert forall i | i in t.electors && i != l :: t.electors[i].wait == Idle;
  }

  /** Its claim passes for that of an unknown node. */
  lemma UnknownClaims(s: Sys, h: Uuid, l: Uuid)
    requires h in s.electors && l in s.electors && h != l && s.electors[l].wait == AwaitOk(s.now) && s.electors[l].id == l
    requires h in s.electors[l].peers && SenderPriority(s.electors[h], l) == -1
    ensures exists t :: Reaches(s, t) && h in t.electors && t.electors[h].role == Storage
  {
    var claim := Message(l, h, CoordinatorMsg);
    var s1 := Next(s, Timeout(l));
    assert claim in Fired(s.electors[l], s.now, s.timers).out;
    assert claim in s1.bag && s1.electors[h] == s.electors[h];
    var t := Next(s1, Deliver(claim));
    assert t.electors[h].role == Storage;
    RunTwo(s, Timeout(l), Deliver(claim), t);
  }

  lemma UnknownDemotes(s: Sys, h: Uuid, l: Uuid)
    requires Init(s) && Outranks(s, h) && l in s.electors && l != h && s.electors[l].priority == -1
    ensures !NeverDemoted(s, h)
  {
    UnknownAsks(s, h, l);
    var t := Next(Next(s, Start(l)), Tick(s.now + s.timers.electionTimeout));
    RunTwo(s, Start(l), Tick(s.now + s.timers.electionTimeout), t);
    UnknownClaims(t, h, l);
    var u :| Reaches(t, u) && h in u.electors && u.electors[h].role == Storage;
    Then(s, t, u);
    var es :| Run(s, es, u);
  }

  /** The highest live node stays Master in every run exactly when no other live node has priority -1. */
  lemma NeverDemotedIff(s: Sys, h: Uuid)
    requires Init(s) && Outranks(s, h) && s.electors[h].role == Master
    ensures NeverDemoted(s, h) <==> forall l | l in s.electors && l != h :: s.electors[l].priority != -1
  {
    if l :| l in s.electors && l != h && s.electors[l].priority == -1 {
      UnknownDemotes(s, h, l);
    } else {
      forall es, t | Run(s, es, t)
        ensures h in t.electors && t.electors[h].role == Master
      {
        RunKeepsMaster(s, h, es, t);
      }
    }
  }
}
