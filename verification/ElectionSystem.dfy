/** The election as a timed state machine: a fixed set of live nodes, a bag of messages delivered in any
    order after any delay, and timers that fire at their deadline. Messages to dead peers are lost. */
module ElectionSystem {
  import opened Uuids
  import opened Election

  datatype Sys = Sys(electors: map<Uuid, Elector>, bag: multiset<Message>, now: int, timers: Timers)

  datatype Event =
    | Start(i: Uuid)
    | Deliver(m: Message)
    | Timeout(i: Uuid)
    | Done(i: Uuid)
    | Tick(later: int)

  /** What does not change during a run. */
  ghost predicate Shape(s: Sys) {
    && 0 <= s.timers.electionTimeout && 0 <= s.timers.coordinatorWaitTimeout
    && (forall i | i in s.electors :: s.electors[i].id == i && s.electors[i].Valid())
    && (forall i | i in s.electors :: i !in s.electors[i].peers)
    && (forall i, j | i in s.electors && j in s.electors && i != j ::
          j in s.electors[i].peers && s.electors[i].peers[j] == s.electors[j].priority)
  }

  /** `h` outranks every other live node, and no live node has the priority that handleCoordinator takes
      for an unknown sender. */
  ghost predicate Highest(s: Sys, h: Uuid) {
    && h in s.electors
    && (forall i | i in s.electors && i != h :: -1 != s.electors[i].priority < s.electors[h].priority)
  }

  ghost predicate OnlyMaster(s: Sys, h: Uuid) {
    forall i | i in s.electors && s.electors[i].role == Master :: i == h
  }

  ghost predicate Init(s: Sys) {
    && Shape(s)
    && s.bag == multiset{}
    && forall i | i in s.electors :: s.electors[i].wait == Idle
  }

  function Deadline(e: Elector, otherwise: int): int {
    if e.wait.Idle? then otherwise else e.wait.deadline
  }

  ghost predicate Enabled(s: Sys, e: Event) {
    match e
    case Start(i) => i in s.electors
    case Deliver(m) => m in s.bag && m.to in s.electors
    case Timeout(i) => i in s.electors && !s.electors[i].wait.Idle? && s.electors[i].wait.deadline <= s.now
    case Done(i) => i in s.electors && s.electors[i].wait.AwaitOk?
    case Tick(later) => later >= s.now && forall i | i in s.electors :: later <= Deadline(s.electors[i], later)
  }

  function Post(s: Sys, i: Uuid, o: Outcome): Sys {
    s.(electors := s.electors[i := o.elector],
       bag := s.bag + multiset(set m | m in o.out && m.to in s.electors))
  }

  function Handle(e: Elector, m: Message, now: int, timers: Timers): Outcome {
    match m.body
    case ElectionMsg(priority) => HandleElection(e, m.from, priority, now, timers)
    case OkMsg => Outcome(HandleOk(e, m.from), {})
    case CoordinatorMsg => HandleCoordinator(e, m.from)
  }

  function Fired(e: Elector, now: int, timers: Timers): Outcome {
    if e.wait.AwaitOk? then ElectionTimeout(e, now, timers) else Outcome(CoordinatorWaitTimeout(e), {})
  }

  function Next(s: Sys, e: Event): Sys
    requires Enabled(s, e)
  {
    match e
    case Start(i) => Post(s, i, StartElection(s.electors[i], s.now, s.timers))
    case Deliver(m) => Post(s.(bag := s.bag - multiset{m}), m.to, Handle(s.electors[m.to], m, s.now, s.timers))
    case Timeout(i) => Post(s, i, Fired(s.electors[i], s.now, s.timers))
    case Done(i) => Post(s, i, Outcome(ContextDone(s.electors[i]), {}))
    case Tick(later) => s.(now := later)
  }

  ghost predicate Run(s: Sys, es: seq<Event>, t: Sys)
    decreases |es|
  {
    if es == [] then s == t else Enabled(s, es[0]) && Run(Next(s, es[0]), es[1..], t)
  }

  // ----- the invariant -----

  /** Who may have sent a message. */
  ghost predicate MessageOk(s: Sys, m: Message) {
    && m.from in s.electors && m.to in s.electors && m.from != m.to
    && (m.body.ElectionMsg? ==> m.body.priority == s.electors[m.from].priority)
    && (m.body.OkMsg? ==> s.electors[m.from].priority > s.electors[m.to].priority)
  }

  /** `l` does not act as coordinator and will not before `until`. */
  predicate Resting(l: Elector, until: int) {
    l.role == Storage && (l.wait.Idle? || (l.wait.AwaitOk? && until < l.wait.deadline))
  }

  ghost predicate Told(s: Sys, h: Uuid, l: Uuid) {
    Message(h, l, CoordinatorMsg) in s.bag
  }

  /** `h` is in becomeLeader: its Coordinator message is on its way to `l`, or `l` has had it and cannot
      claim the role before `h` takes it. */
  ghost predicate Held(s: Sys, h: Uuid, l: Uuid, until: int)
    requires l in s.electors
  {
    Told(s, h, l) || Resting(s.electors[l], until)
  }

  /** `h` is Master: `l` is told so, or rests, or its own claim is on its way to `h`, who will answer it. */
  ghost predicate Yields(s: Sys, h: Uuid, l: Uuid)
    requires l in s.electors
  {
    || Told(s, h, l)
    || (s.electors[l].role == Storage && !s.electors[l].wait.AwaitCancel?)
    || Message(l, h, CoordinatorMsg) in s.bag
  }

  ghost predicate Leads(s: Sys, h: Uuid, l: Uuid)
    requires h in s.electors && l in s.electors
  {
    var e := s.electors[h];
    && (e.role == Master ==> Yields(s, h, l))
    && (e.wait.AwaitCancel? && e.role != Master ==> Held(s, h, l, e.wait.deadline))
  }

  /** The timers of `h` are not overdue and were set no earlier than they could be. */
  predicate OnTime(e: Elector, now: int, timers: Timers) {
    && (e.wait.AwaitOk? ==> now <= e.wait.deadline <= now + timers.electionTimeout)
    && (e.wait.AwaitCancel? ==> now <= e.wait.deadline <= now + timers.coordinatorWaitTimeout)
  }

  ghost predicate Sound(s: Sys, h: Uuid) {
    && Shape(s) && Highest(s, h)
    && (forall m | m in s.bag :: MessageOk(s, m))
    && OnTime(s.electors[h], s.now, s.timers)
  }

  ghost predicate Inv(s: Sys, h: Uuid) {
    && Sound(s, h)
    && (forall l | l in s.electors && l != h :: Leads(s, h, l))
  }

  /** `h` starts out as the only Master or not as Master. */
  lemma InitInv(s: Sys, h: Uuid)
    requires Init(s) && Highest(s, h) && (s.electors[h].role == Master ==> OnlyMaster(s, h))
    ensures Inv(s, h)
  {
  }

  // ----- what one step of one node sends -----

  /** What an outcome of `e` at `i` may be for the messages to stay as MessageOk says. */
  ghost predicate Proper(s: Sys, i: Uuid, o: Outcome)
    requires i in s.electors
  {
    var e := s.electors[i];
    && o.elector.id == e.id && o.elector.priority == e.priority && o.elector.peers == e.peers && o.elector.Valid()
    && forall m | m in o.out && m.to in s.electors :: MessageOk(s, m) && m.from == i
  }

  lemma StartProper(s: Sys, i: Uuid)
    requires Shape(s) && i in s.electors
    ensures Proper(s, i, StartElection(s.electors[i], s.now, s.timers))
  {
  }

  lemma HandleProper(s: Sys, m: Message)
    requires Shape(s) && MessageOk(s, m)
    ensures Proper(s, m.to, Handle(s.electors[m.to], m, s.now, s.timers))
  {
    StartProper(s, m.to);
  }

  lemma FiredProper(s: Sys, i: Uuid)
    requires Shape(s) && i in s.electors && !s.electors[i].wait.Idle?
    ensures Proper(s, i, Fired(s.electors[i], s.now, s.timers))
  {
  }

  lemma DoneProper(s: Sys, i: Uuid)
    requires Shape(s) && i in s.electors && s.electors[i].wait.AwaitOk?
    ensures Proper(s, i, Outcome(ContextDone(s.electors[i]), {}))
  {
  }

  lemma PostShape(s: Sys, i: Uuid, o: Outcome, h: Uuid)
    requires Shape(s) && Highest(s, h) && i in s.electors && Proper(s, i, o)
    ensures Shape(Post(s, i, o)) && Highest(Post(s, i, o), h)
  {
  }

  lemma PostMessages(s: Sys, i: Uuid, o: Outcome)
    requires i in s.electors && Proper(s, i, o) && forall m | m in s.bag :: MessageOk(s, m)
    ensures forall m | m in Post(s, i, o).bag :: MessageOk(Post(s, i, o), m)
  {
    var s' := Post(s, i, o);
    forall m | m in s'.bag
      ensures MessageOk(s', m)
    {
      assert m in s.bag || (m in o.out && m.to in s.electors);
      assert MessageOk(s, m);
    }
  }

  lemma PostSound(s: Sys, i: Uuid, o: Outcome, h: Uuid)
    requires Sound(s, h) && i in s.electors && Proper(s, i, o)
    requires i == h ==> OnTime(o.elector, s.now, s.timers)
    ensures Sound(Post(s, i, o), h)
  {
    PostShape(s, i, o, h);
    PostMessages(s, i, o);
  }

  // ----- steps of a lower node -----

  /** Outside the timeouts a lower node keeps its role or loses it, and it waits, stops waiting or starts
      to wait for an OK: with `h` in its peer table it never becomes leader directly. */
  ghost predicate Meek(e: Elector, e': Elector, now: int, timers: Timers) {
    && (e'.role == e.role || e'.role == Storage)
    && (e'.wait == e.wait || e'.wait.Idle? || e'.wait == AwaitOk(now + timers.electionTimeout))
  }

  lemma StartMeek(s: Sys, h: Uuid, l: Uuid)
    requires Shape(s) && Highest(s, h) && l in s.electors && l != h
    ensures Meek(s.electors[l], StartElection(s.electors[l], s.now, s.timers).elector, s.now, s.timers)
  {
    assert h in Higher(s.electors[l]);
  }

  lemma HandleMeek(s: Sys, h: Uuid, m: Message)
    requires Sound(s, h) && m in s.bag && m.to != h
    ensures Meek(s.electors[m.to], Handle(s.electors[m.to], m, s.now, s.timers).elector, s.now, s.timers)
  {
    StartMeek(s, h, m.to);
  }

  /** The claim of the highest node is accepted. */
  lemma ToldRests(s: Sys, h: Uuid, m: Message, until: int)
    requires Sound(s, h) && m in s.bag && m.to != h && m.from == h && m.body == CoordinatorMsg
    ensures Resting(Handle(s.electors[m.to], m, s.now, s.timers).elector, until)
  {
  }

  lemma MeekLeads(s: Sys, s': Sys, h: Uuid, l: Uuid)
    requires Sound(s, h) && s.timers.electionTimeout > s.timers.coordinatorWaitTimeout
    requires l in s.electors && l != h && Leads(s, h, l)
    requires h in s'.electors && l in s'.electors && s'.electors[h] == s.electors[h]
    requires Meek(s.electors[l], s'.electors[l], s.now, s.timers)
    requires forall m | m in s.bag && m.to in {h, l} && m.from in {h, l} && m.body == CoordinatorMsg :: m in s'.bag
    ensures Leads(s', h, l)
  {
  }

  /** Some other node `i` takes a step that sends `o.out`. */
  lemma OtherLeads(s: Sys, s': Sys, h: Uuid, l: Uuid)
    requires h in s.electors && l in s.electors && Leads(s, h, l)
    requires h in s'.electors && l in s'.electors && s'.electors[h] == s.electors[h] && s'.electors[l] == s.electors[l]
    requires Told(s, h, l) ==> Told(s', h, l)
    requires Message(l, h, CoordinatorMsg) in s.bag ==> Message(l, h, CoordinatorMsg) in s'.bag
    ensures Leads(s', h, l)
  {
  }

  // ----- steps of the highest node -----

  /** The highest node never yields: it takes no OK and ignores every claim. */
  lemma HandleByHighest(s: Sys, h: Uuid, m: Message)
    requires Shape(s) && Highest(s, h) && MessageOk(s, m) && m.to == h
    ensures var e := s.electors[h]; var o := Handle(e, m, s.now, s.timers);
            && (o.elector == e || o.elector == StartElection(e, s.now, s.timers).elector)
            && (o.elector != e ==> StartElection(e, s.now, s.timers).out <= o.out)
            && (m.body == CoordinatorMsg && e.role == Master ==> o.out == ToAll(h, e.peers.Keys, CoordinatorMsg))
  {
  }

  /** Whoever enters becomeLeader tells every live node. */
  lemma StartTells(s: Sys, h: Uuid, l: Uuid)
    requires Shape(s) && h in s.electors && l in s.electors && l != h
    ensures var e := s.electors[h]; var o := StartElection(e, s.now, s.timers);
            && o.elector.role == e.role
            && (o.elector.wait.AwaitCancel? && o.elector.wait != e.wait ==> Message(h, l, CoordinatorMsg) in o.out)
  {
  }

  lemma StartOnTime(e: Elector, now: int, timers: Timers)
    requires OnTime(e, now, timers) && 0 <= timers.electionTimeout && 0 <= timers.coordinatorWaitTimeout
    ensures OnTime(StartElection(e, now, timers).elector, now, timers)
  {
  }

  lemma FiredTells(s: Sys, h: Uuid, l: Uuid)
    requires Shape(s) && h in s.electors && l in s.electors && l != h && s.electors[h].wait.AwaitOk?
    ensures Message(h, l, CoordinatorMsg) in Fired(s.electors[h], s.now, s.timers).out
  {
  }
}
