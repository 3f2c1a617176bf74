/** Every run of the election: the highest live node is never demoted and becomes the only Master. */
module ElectionTheorems {
  import opened Uuids
  import opened Election
  import opened ElectionSystem

  // ----- what holds for any timers -----

  lemma StartSound(s: Sys, h: Uuid, i: Uuid)
    requires Sound(s, h) && i in s.electors
    ensures Sound(Next(s, Start(i)), h)
  {
    StartProper(s, i);
    if i == h {
      StartOnTime(s.electors[h], s.now, s.timers);
    }
    PostSound(s, i, StartElection(s.electors[i], s.now, s.timers), h);
  }

  lemma PopSound(s: Sys, h: Uuid, m: Message)
    requires Sound(s, h) && m in s.bag
    ensures Sound(s.(bag := s.bag - multiset{m}), h) && MessageOk(s, m)
  {
    var s1 := s.(bag := s.bag - multiset{m});
    forall m' | m' in s1.bag
      ensures MessageOk(s1, m')
    {
      assert m' in s.bag && MessageOk(s, m');
    }
  }

  lemma HandleSound(s: Sys, h: Uuid, m: Message)
    requires Sound(s, h) && MessageOk(s, m)
    ensures Sound(Post(s, m.to, Handle(s.electors[m.to], m, s.now, s.timers)), h)
  {
    HandleProper(s, m);
    if m.to == h {
      HandleByHighest(s, h, m);
      StartOnTime(s.electors[h], s.now, s.timers);
    }
    PostSound(s, m.to, Handle(s.electors[m.to], m, s.now, s.timers), h);
  }

  lemma DeliverSound(s: Sys, h: Uuid, m: Message)
    requires Sound(s, h) && m in s.bag && m.to in s.electors
    ensures Sound(Next(s, Deliver(m)), h)
  {
    PopSound(s, h, m);
    HandleSound(s.(bag := s.bag - multiset{m}), h, m);
  }

  lemma TimeoutSound(s: Sys, h: Uuid, i: Uuid)
    requires Sound(s, h) && Enabled(s, Timeout(i))
    ensures Sound(Next(s, Timeout(i)), h)
  {
    FiredProper(s, i);
    PostSound(s, i, Fired(s.electors[i], s.now, s.timers), h);
  }

  lemma DoneSound(s: Sys, h: Uuid, i: Uuid)
    requires Sound(s, h) && Enabled(s, Done(i))
    ensures Sound(Next(s, Done(i)), h)
  {
    DoneProper(s, i);
    PostSound(s, i, Outcome(ContextDone(s.electors[i]), {}), h);
  }

  lemma TickSound(s: Sys, h: Uuid, later: int)
    requires Sound(s, h) && Enabled(s, Tick(later))
    ensures Sound(Next(s, Tick(later)), h)
  {
    assert later <= Deadline(s.electors[h], later);
    forall m | m in s.bag
      ensures MessageOk(Next(s, Tick(later)), m)
    {
      assert MessageOk(s, m);
    }
  }

  lemma StepSound(s: Sys, h: Uuid, e: Event)
    requires Sound(s, h) && Enabled(s, e)
    ensures Sound(Next(s, e), h)
  {
    match e
    case Start(i) => StartSound(s, h, i);
    case Deliver(m) => DeliverSound(s, h, m);
    case Timeout(i) => TimeoutSound(s, h, i);
    case Done(i) => DoneSound(s, h, i);
    case Tick(later) => TickSound(s, h, later);
  }

  lemma TimersStay(s: Sys, e: Event)
    requires Enabled(s, e)
    ensures Next(s, e).timers == s.timers
  {
  }

  /** A step never takes the role from the highest node. */
  lemma StepKeepsMaster(s: Sys, h: Uuid, e: Event)
    requires Sound(s, h) && Enabled(s, e) && s.electors[h].role == Master
    ensures h in Next(s, e).electors && Next(s, e).electors[h].role == Master
  {
    if e.Deliver? && e.m.to == h {
      HandleByHighest(s, h, e.m);
    }
  }

  lemma {:induction false} RunKeepsMaster(s: Sys, h: Uuid, es: seq<Event>, t: Sys)
    requires Sound(s, h) && Run(s, es, t)
    ensures Sound(t, h) && t.timers == s.timers
    ensures s.electors[h].role == Master ==> t.electors[h].role == Master
    decreases |es|
  {
    if es != [] {
      StepSound(s, h, es[0]);
      TimersStay(s, es[0]);
      if s.electors[h].role == Master {
        StepKeepsMaster(s, h, es[0]);
      }
      RunKeepsMaster(Next(s, es[0]), h, es[1..], t);
    }
  }

  // ----- what an OK and a claim do -----

  /** An OK of another node ends the first wait, and with it the election; nothing else notices it. */
  lemma HandleOkMeans(e: Elector, from: Uuid)
    requires e.Valid()
    ensures var e' := HandleOk(e, from);
            && (from != e.id && e.wait.AwaitOk? ==>
                  e'.wait == Idle && !e'.electionInProgress && !e'.okOpen && !e'.cancelOpen && e'.role == e.role)
            && (from == e.id || !e.wait.AwaitOk? ==> e' == e)
  {
  }

  /** A claim of a known node of lower priority, -1 apart, changes nothing and is answered to all by a Master.
      Any other claim ends what runs, demotes the node, and leaves the sender as the one master of the
      peer table, or no master there if the sender is not in it. */
  lemma HandleCoordinatorMeans(e: Elector, from: Uuid)
    requires e.Valid()
    ensures var o := HandleCoordinator(e, from);
            && (from in e.peers && -1 != e.peers[from] < e.priority ==>
                  && o.elector == e
                  && forall m :: m in o.out <==> e.role == Master && m.from == e.id && m.to in e.peers
                                                 && m.body == CoordinatorMsg)
            && (!(from in e.peers && -1 != e.peers[from] < e.priority) ==>
                  && o.out == {} && o.elector.role == Storage && o.elector.wait == Idle
                  && !o.elector.electionInProgress && !o.elector.cancelOpen
                  && o.elector.peerRoles.Keys == e.peers.Keys
                  && forall p | p in o.elector.peerRoles :: o.elector.peerRoles[p] == Master <==> p == from)
  {
  }

  /** How the waits end otherwise: without an OK the node claims the role; without a cancel it is Master; and
      when the context ends it is as before the election, but for okChan. */
  lemma WaitsEnd(e: Elector, now: int, timers: Timers)
    requires e.Valid()
    ensures e.wait.AwaitOk? ==>
              var o := ElectionTimeout(e, now, timers);
              && o.elector.wait == AwaitCancel(now + timers.coordinatorWaitTimeout, false)
              && o.elector.electionInProgress && o.elector.role == e.role
              && forall m :: m in o.out <==> m.from == e.id && m.to in e.peers && m.body == CoordinatorMsg
    ensures e.wait.AwaitCancel? ==>
              var e' := CoordinatorWaitTimeout(e);
              && e'.role == Master && e'.wait == Idle && !e'.electionInProgress && !e'.cancelOpen
              && (e'.okOpen <==> e.okOpen && e.wait.direct)
    ensures e.wait.AwaitOk? ==>
              var e' := ContextDone(e);
              && e'.role == e.role && e'.wait == Idle && !e'.electionInProgress && !e'.cancelOpen && e'.okOpen
  {
  }

  // ----- what needs the election timeout to be the longer one -----

  ghost predicate Ordered(timers: Timers) {
    timers.electionTimeout > timers.coordinatorWaitTimeout
  }

  /** What is told stays told until it is delivered. */
  lemma PostTold(s: Sys, i: Uuid, o: Outcome, m: Message)
    requires i in s.electors
    ensures m in s.bag ==> m in Post(s, i, o).bag
    ensures m in o.out && m.to in s.electors ==> m in Post(s, i, o).bag
  {
  }

  /** A step of a third node. */
  lemma OtherPosts(s: Sys, i: Uuid, o: Outcome, h: Uuid, l: Uuid)
    requires {i, h, l} <= s.electors.Keys && i != h && i != l && Leads(s, h, l)
    ensures Leads(Post(s, i, o), h, l)
  {
    PostTold(s, i, o, Message(h, l, CoordinatorMsg));
    PostTold(s, i, o, Message(l, h, CoordinatorMsg));
    OtherLeads(s, Post(s, i, o), h, l);
  }

  lemma MeekPosts(s: Sys, o: Outcome, h: Uuid, l: Uuid)
    requires Sound(s, h) && Ordered(s.timers) && l in s.electors && l != h && Leads(s, h, l)
    requires Meek(s.electors[l], o.elector, s.now, s.timers)
    ensures Leads(Post(s, l, o), h, l)
  {
    forall m | m in s.bag
      ensures m in Post(s, l, o).bag
    {
      PostTold(s, l, o, m);
    }
    MeekLeads(s, Post(s, l, o), h, l);
  }

  lemma HighestStartLeads(s: Sys, h: Uuid, l: Uuid)
    requires Shape(s) && h in s.electors && l in s.electors && l != h && Leads(s, h, l)
    ensures Leads(Next(s, Start(h)), h, l)
  {
    StartTells(s, h, l);
    PostTold(s, h, StartElection(s.electors[h], s.now, s.timers), Message(h, l, CoordinatorMsg));
    PostTold(s, h, StartElection(s.electors[h], s.now, s.timers), Message(l, h, CoordinatorMsg));
  }

  lemma StartLeads(s: Sys, h: Uuid, i: Uuid, l: Uuid)
    requires Inv(s, h) && Ordered(s.timers) && i in s.electors && l in s.electors && l != h
    ensures Leads(Next(s, Start(i)), h, l)
  {
    assert Leads(s, h, l);
    if i == h {
      HighestStartLeads(s, h, l);
    } else if i == l {
      StartMeek(s, h, l);
      MeekPosts(s, StartElection(s.electors[l], s.now, s.timers), h, l);
    } else {
      OtherPosts(s, i, StartElection(s.electors[i], s.now, s.timers), h, l);
    }
  }

  lemma DeliverToHighest(s: Sys, h: Uuid, m: Message, l: Uuid)
    requires Inv(s, h) && m in s.bag && m.to == h && l in s.electors && l != h
    ensures Leads(Next(s, Deliver(m)), h, l)
  {
    assert Leads(s, h, l) && MessageOk(s, m);
    HandleByHighest(s, h, m);
    StartTells(s, h, l);
    var o, s1 := Handle(s.electors[h], m, s.now, s.timers), s.(bag := s.bag - multiset{m});
    PostTold(s1, h, o, Message(h, l, CoordinatorMsg));
    PostTold(s1, h, o, Message(l, h, CoordinatorMsg));
  }

  /** What `l` takes other than the claim of `h` is not among the messages that Leads looks at. */
  lemma DeliverMeek(s: Sys, h: Uuid, m: Message, l: Uuid)
    requires Inv(s, h) && Ordered(s.timers) && m in s.bag && m.to == l && l in s.electors && l != h
    requires !(m.from == h && m.body == CoordinatorMsg)
    ensures Leads(Next(s, Deliver(m)), h, l)
  {
    HandleMeek(s, h, m);
    assert Leads(s, h, l);
    MeekLeads(s, Next(s, Deliver(m)), h, l);
  }

  lemma DeliverClaim(s: Sys, h: Uuid, m: Message, l: Uuid)
    requires Inv(s, h) && m in s.bag && m.to == l && l in s.electors && l != h
    requires m.from == h && m.body == CoordinatorMsg
    ensures Leads(Next(s, Deliver(m)), h, l)
  {
    ToldRests(s, h, m, if s.electors[h].wait.Idle? then 0 else s.electors[h].wait.deadline);
  }

  lemma DeliverToLower(s: Sys, h: Uuid, m: Message, l: Uuid)
    requires Inv(s, h) && Ordered(s.timers) && m in s.bag && m.to == l && l in s.electors && l != h
    ensures Leads(Next(s, Deliver(m)), h, l)
  {
    if m.from == h && m.body == CoordinatorMsg {
      DeliverClaim(s, h, m, l);
    } else {
      DeliverMeek(s, h, m, l);
    }
  }

  lemma DeliverLeads(s: Sys, h: Uuid, m: Message, l: Uuid)
    requires Inv(s, h) && Ordered(s.timers) && m in s.bag && l in s.electors && l != h
    ensures Leads(Next(s, Deliver(m)), h, l)
  {
    if m.to == h {
      DeliverToHighest(s, h, m, l);
    } else if m.to == l {
      DeliverToLower(s, h, m, l);
    } else {
      OtherLeads(s, Next(s, Deliver(m)), h, l);
    }
  }

  lemma HighestTimeoutLeads(s: Sys, h: Uuid, l: Uuid)
    requires Shape(s) && Enabled(s, Timeout(h)) && l in s.electors && l != h && Leads(s, h, l)
    ensures Leads(Next(s, Timeout(h)), h, l)
  {
    var o := Fired(s.electors[h], s.now, s.timers);
    PostTold(s, h, o, Message(h, l, CoordinatorMsg));
    PostTold(s, h, o, Message(l, h, CoordinatorMsg));
    if s.electors[h].wait.AwaitOk? {
      FiredTells(s, h, l);
    }
  }

  lemma LowerTimeoutLeads(s: Sys, h: Uuid, l: Uuid)
    requires Shape(s) && Enabled(s, Timeout(l)) && h in s.electors && l != h && Leads(s, h, l)
    requires OnTime(s.electors[h], s.now, s.timers)
    ensures Leads(Next(s, Timeout(l)), h, l)
  {
    var o := Fired(s.electors[l], s.now, s.timers);
    PostTold(s, l, o, Message(h, l, CoordinatorMsg));
    PostTold(s, l, o, Message(l, h, CoordinatorMsg));
    if s.electors[l].wait.AwaitOk? {
      assert Message(l, h, CoordinatorMsg) in o.out;
    }
  }

  lemma TimeoutLeads(s: Sys, h: Uuid, i: Uuid, l: Uuid)
    requires Inv(s, h) && Enabled(s, Timeout(i)) && l in s.electors && l != h
    ensures Leads(Next(s, Timeout(i)), h, l)
  {
    assert Leads(s, h, l);
    if i == h {
      HighestTimeoutLeads(s, h, l);
    } else if i == l {
      LowerTimeoutLeads(s, h, l);
    } else {
      OtherPosts(s, i, Fired(s.electors[i], s.now, s.timers), h, l);
    }
  }

  /** Nothing is sent, and who ends its wait claims nothing. */
  lemma DoneLeads(s: Sys, h: Uuid, i: Uuid, l: Uuid)
    requires Inv(s, h) && Enabled(s, Done(i)) && l in s.electors && l != h
    ensures Leads(Next(s, Done(i)), h, l)
  {
    var none: set<Message> := {};
    assert (set m | m in none && m.to in s.electors) == none;
    assert s.bag + multiset(none) == s.bag;
    assert Next(s, Done(i)).bag == s.bag && Leads(s, h, l);
  }

  lemma StepLeads(s: Sys, h: Uuid, e: Event, l: Uuid)
    requires Inv(s, h) && Ordered(s.timers) && Enabled(s, e) && l in s.electors && l != h
    ensures Leads(Next(s, e), h, l)
  {
    match e
    case Start(i) => StartLeads(s, h, i, l);
    case Deliver(m) => DeliverLeads(s, h, m, l);
    case Timeout(i) => TimeoutLeads(s, h, i, l);
    case Done(i) => DoneLeads(s, h, i, l);
    case Tick(later) => OtherLeads(s, Next(s, e), h, l);
  }

  lemma StepInv(s: Sys, h: Uuid, e: Event)
    requires Inv(s, h) && Ordered(s.timers) && Enabled(s, e)
    ensures Inv(Next(s, e), h)
  {
    StepSound(s, h, e);
    forall l | l in s.electors && l != h
      ensures Leads(Next(s, e), h, l)
    {
      StepLeads(s, h, e, l);
    }
  }

  lemma {:induction false} RunInv(s: Sys, h: Uuid, es: seq<Event>, t: Sys)
    requires Inv(s, h) && Ordered(s.timers) && Run(s, es, t)
    ensures Inv(t, h)
    decreases |es|
  {
    if es != [] {
      StepInv(s, h, es[0]);
      StepSound(s, h, es[0]);
      TimersStay(s, es[0]);
      RunInv(Next(s, es[0]), h, es[1..], t);
    }
  }

  // ----- the highest node wins -----

  /** `h` is Master or will be by the time `bound`. */
  predicate Due(e: Elector, bound: int, timers: Timers) {
    || e.role == Master
    || (e.wait.AwaitOk? && e.wait.deadline + timers.coordinatorWaitTimeout <= bound)
    || (e.wait.AwaitCancel? && e.wait.deadline <= bound)
  }

  lemma DeliverDue(s: Sys, h: Uuid, m: Message, bound: int)
    requires Sound(s, h) && Enabled(s, Deliver(m)) && Due(s.electors[h], bound, s.timers)
    ensures h in Next(s, Deliver(m)).electors && Due(Next(s, Deliver(m)).electors[h], bound, s.timers)
  {
    if m.to == h {
      HandleByHighest(s, h, m);
      StartDue(s.electors[h], s.now, s.timers, bound);
    }
  }

  /** A further election does not set back the timers of the one that runs. */
  lemma StartDue(e: Elector, now: int, timers: Timers, bound: int)
    requires e.Valid() && Due(e, bound, timers)
    ensures Due(StartElection(e, now, timers).elector, bound, timers)
  {
  }

  lemma FiredDue(s: Sys, h: Uuid, i: Uuid, bound: int)
    requires Sound(s, h) && Enabled(s, Timeout(i)) && Due(s.electors[h], bound, s.timers)
    ensures h in Next(s, Timeout(i)).electors && Due(Next(s, Timeout(i)).electors[h], bound, s.timers)
  {
    assert i == h ==> s.now == s.electors[h].wait.deadline;
  }

  lemma StepDue(s: Sys, h: Uuid, e: Event, bound: int)
    requires Sound(s, h) && Enabled(s, e) && e != Done(h) && Due(s.electors[h], bound, s.timers)
    ensures h in Next(s, e).electors && Due(Next(s, e).electors[h], bound, s.timers)
  {
    match e
    case Start(i) => StartDue(s.electors[h], s.now, s.timers, bound);
    case Deliver(m) => DeliverDue(s, h, m, bound);
    case Timeout(i) => FiredDue(s, h, i, bound);
    case Done(i) => assert i != h;
    case Tick(later) =>
  }

  lemma {:induction false} RunDue(s: Sys, h: Uuid, es: seq<Event>, t: Sys, bound: int)
    requires Sound(s, h) && Run(s, es, t) && Done(h) !in es && Due(s.electors[h], bound, s.timers)
    ensures Sound(t, h) && Due(t.electors[h], bound, s.timers)
    decreases |es|
  {
    if es != [] {
      StepSound(s, h, es[0]);
      TimersStay(s, es[0]);
      StepDue(s, h, es[0], bound);
      RunDue(Next(s, es[0]), h, es[1..], t, bound);
    }
  }

  /** The highest node cannot be on either timer any more once both have had their time. */
  lemma StartWins(t: Sys, h: Uuid, later: seq<Event>, u: Sys)
    requires Sound(t, h) && Run(Next(t, Start(h)), later, u) && Done(h) !in later
    requires u.now > t.now + t.timers.electionTimeout + t.timers.coordinatorWaitTimeout
    ensures h in u.electors && u.electors[h].role == Master
  {
    var t1 := Next(t, Start(h));
    StartSound(t, h, h);
    StartedDue(t, h);
    RunDue(t1, h, later, u, t.now + t.timers.electionTimeout + t.timers.coordinatorWaitTimeout);
  }

  lemma StartedDue(t: Sys, h: Uuid)
    requires Sound(t, h)
    ensures var t1 := Next(t, Start(h));
            && t1.timers == t.timers && h in t1.electors
            && Due(t1.electors[h], t.now + t.timers.electionTimeout + t.timers.coordinatorWaitTimeout, t.timers)
  {
  }

  // ----- an election that any node starts -----

  /** An idle node asks exactly the peers of higher priority, or tells every peer when there is none. */
  lemma StartMeans(e: Elector, now: int, timers: Timers)
    requires e.Valid()
    ensures var o := StartElection(e, now, timers);
            && (e.wait.Idle? && (exists p :: p in e.peers && e.peers[p] > e.priority) ==>
                  && o.elector.wait == AwaitOk(now + timers.electionTimeout)
                  && forall m :: m in o.out <==> m.from == e.id && m.to in e.peers && e.peers[m.to] > e.priority
                                                 && m.body == ElectionMsg(e.priority))
            && (e.wait.Idle? && (forall p | p in e.peers :: e.peers[p] <= e.priority) ==>
                  && o.elector.wait == AwaitCancel(now + timers.coordinatorWaitTimeout, true)
                  && forall m :: m in o.out <==> m.from == e.id && m.to in e.peers && m.body == CoordinatorMsg)
            && (!e.wait.Idle? ==> o.elector == e && o.out == {})
            && o.elector.role == e.role
  {
    assert forall p :: p in Higher(e) <==> p in e.peers && e.peers[p] > e.priority;
  }

  /** Who is asked by a node of lower priority says OK, and unless it is Master or an election of its own runs
      it starts one as StartMeans says. Anybody else who asks is ignored. */
  lemma HandleElectionMeans(e: Elector, from: Uuid, priority: int, now: int, timers: Timers)
    requires e.Valid()
    ensures var o := HandleElection(e, from, priority, now, timers); var started := StartElection(e, now, timers);
            && (priority < e.priority ==> Message(e.id, from, OkMsg) in o.out)
            && (priority >= e.priority ==> o.elector == e && o.out == {})
            && (priority < e.priority && (e.role == Master || !e.wait.Idle?) ==>
                  o.elector == e && o.out == {Message(e.id, from, OkMsg)})
            && (priority < e.priority && e.role != Master && e.wait.Idle? ==>
                  && o.elector == started.elector && !o.elector.wait.Idle?
                  && forall m :: m in o.out <==> m in started.out || m == Message(e.id, from, OkMsg))
  {
  }

  /** The highest node that is asked is Master or will be within the two timeouts. */
  lemma AskedDue(t: Sys, h: Uuid, m: Message)
    requires Sound(t, h) && Enabled(t, Deliver(m)) && m.to == h && m.body.ElectionMsg?
    ensures var t1 := Next(t, Deliver(m));
            && h in t1.electors && t1.timers == t.timers
            && Due(t1.electors[h], t.now + t.timers.electionTimeout + t.timers.coordinatorWaitTimeout, t.timers)
  {
    assert MessageOk(t, m);
    HandleElectionMeans(t.electors[h], m.from, m.body.priority, t.now, t.timers);
    StartMeans(t.electors[h], t.now, t.timers);
  }

  lemma AskedWins(t: Sys, h: Uuid, m: Message, later: seq<Event>, u: Sys)
    requires Sound(t, h) && Enabled(t, Deliver(m)) && m.to == h && m.body.ElectionMsg?
    requires Run(Next(t, Deliver(m)), later, u) && Done(h) !in later
    requires u.now > t.now + t.timers.electionTimeout + t.timers.coordinatorWaitTimeout
    ensures h in u.electors && u.electors[h].role == Master
  {
    DeliverSound(t, h, m);
    AskedDue(t, h, m);
    RunDue(Next(t, Deliver(m)), h, later, u, t.now + t.timers.electionTimeout + t.timers.coordinatorWaitTimeout);
  }

  /** What an idle node other than the highest starts asks the highest. */
  lemma StarterAsks(s: Sys, h: Uuid, x: Uuid)
    requires Shape(s) && Highest(s, h) && x in s.electors && x != h && s.electors[x].wait.Idle?
    ensures Message(x, h, ElectionMsg(s.electors[x].priority)) in Next(s, Start(x)).bag
  {
    StartMeans(s.electors[x], s.now, s.timers);
    PostTold(s, x, StartElection(s.electors[x], s.now, s.timers), Message(x, h, ElectionMsg(s.electors[x].priority)));
  }

  // ----- the theorems -----

  ghost predicate Starts(s: Sys, h: Uuid) {
    Init(s) && Highest(s, h) && (s.electors[h].role == Master ==> OnlyMaster(s, h))
  }

  /** Once the highest-priority live node is Master it is never demoted, whatever the timers are. */
  lemma MasterForGood(s: Sys, es: seq<Event>, t: Sys, later: seq<Event>, u: Sys, h: Uuid)
    requires Starts(s, h) && Run(s, es, t) && Run(t, later, u)
    requires h in t.electors && t.electors[h].role == Master
    ensures h in u.electors && u.electors[h].role == Master
  {
    InitInv(s, h);
    RunKeepsMaster(s, h, es, t);
    RunKeepsMaster(t, h, later, u);
  }

  /** Any election of the highest live node makes it Master within the two timeouts, if its context lasts. */
  lemma HighestWins(s: Sys, es: seq<Event>, t: Sys, later: seq<Event>, u: Sys, h: Uuid)
    requires Starts(s, h) && Run(s, es, t) && Enabled(t, Start(h)) && Run(Next(t, Start(h)), later, u)
    requires Done(h) !in later && u.now > t.now + s.timers.electionTimeout + s.timers.coordinatorWaitTimeout
    ensures h in u.electors && u.electors[h].role == Master
  {
    InitInv(s, h);
    RunKeepsMaster(s, h, es, t);
    StartWins(t, h, later, u);
  }

  /** An election of any live node asks the highest one, which is Master within the two timeouts after the
      question reaches it, if its own context lasts: `es` leads to the start at `x`, `mid` from there to the
      delivery, `later` to `u`. */
  lemma AnyElectionWins(s: Sys, es: seq<Event>, t: Sys, x: Uuid, mid: seq<Event>, v: Sys, later: seq<Event>, u: Sys,
                        h: Uuid)
    requires Starts(s, h) && Run(s, es, t) && x in t.electors && x != h && t.electors[x].wait.Idle?
    ensures var m := Message(x, h, ElectionMsg(t.electors[x].priority));
            && Enabled(Next(t, Start(x)), Deliver(m))
            && (Run(Next(t, Start(x)), mid, v) && Enabled(v, Deliver(m)) && Run(Next(v, Deliver(m)), later, u)
                && Done(h) !in later
                && u.now > v.now + s.timers.electionTimeout + s.timers.coordinatorWaitTimeout ==>
                  h in u.electors && u.electors[h].role == Master)
  {
    InitInv(s, h);
    RunKeepsMaster(s, h, es, t);
    StarterAsks(t, h, x);
    StartSound(t, h, x);
    TimersStay(t, Start(x));
    var m := Message(x, h, ElectionMsg(t.electors[x].priority));
    if Run(Next(t, Start(x)), mid, v) && Enabled(v, Deliver(m)) && Run(Next(v, Deliver(m)), later, u)
       && Done(h) !in later && u.now > v.now + s.timers.electionTimeout + s.timers.coordinatorWaitTimeout {
      RunKeepsMaster(Next(t, Start(x)), h, mid, v);
      AskedWins(v, h, m, later, u);
    }
  }

  /** With no message in flight, the highest live node is the only Master once it is Master. */
  lemma SoleMaster(s: Sys, es: seq<Event>, t: Sys, h: Uuid)
    requires Starts(s, h) && Ordered(s.timers) && Run(s, es, t)
    requires h in t.electors && t.electors[h].role == Master && t.bag == multiset{}
    ensures OnlyMaster(t, h)
  {
    InitInv(s, h);
    RunInv(s, h, es, t);
    assert forall l | l in t.electors && l != h :: Leads(t, h, l);
  }
}
