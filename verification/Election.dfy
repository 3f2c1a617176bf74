/** The bully elector of one node and what each of its methods does to it
    (backend/dfs/election/bully.go). The class BullyElector proves its methods against these
    functions. Times are in milliseconds. */
module Election {
  import opened Uuids

  datatype Role = Master | Storage

  datatype Timers = Timers(electionTimeout: int, coordinatorWaitTimeout: int)

  const TIMERS := Timers(3000, 500)

  datatype Body = ElectionMsg(priority: int) | OkMsg | CoordinatorMsg

  datatype Message = Message(from: Uuid, to: Uuid, body: Body)

  /** Where StartElection stands: not running, in its select on okChan, or in the select of becomeLeader,
      called `direct`ly or after the first select timed out. */
  datatype Wait = Idle | AwaitOk(deadline: int) | AwaitCancel(deadline: int, direct: bool)

  /** `okOpen` and `cancelOpen` say that okChan and leaderCancelChan are not nil. */
  datatype Elector = Elector(
    id: Uuid,
    priority: int,
    peers: map<Uuid, int>,
    peerRoles: map<Uuid, Role>,
    role: Role,
    electionInProgress: bool,
    okOpen: bool,
    cancelOpen: bool,
    wait: Wait)
  {
    /** The flags say where StartElection stands. */
    predicate Valid() {
      && peerRoles.Keys == peers.Keys
      && (electionInProgress <==> !wait.Idle?)
      && (cancelOpen <==> wait.AwaitCancel?)
      && (wait.AwaitOk? ==> okOpen)
    }
  }

  datatype Outcome = Outcome(elector: Elector, out: set<Message>)

  function Higher(e: Elector): set<Uuid> {
    set p | p in e.peers && e.peers[p] > e.priority
  }

  function ToAll(from: Uuid, targets: set<Uuid>, body: Body): set<Message> {
    set p | p in targets :: Message(from, p, body)
  }

  function BecomeLeader(e: Elector, now: int, direct: bool, timers: Timers): Outcome {
    Outcome(e.(cancelOpen := true, wait := AwaitCancel(now + timers.coordinatorWaitTimeout, direct)),
            ToAll(e.id, e.peers.Keys, CoordinatorMsg))
  }

  function StartElection(e: Elector, now: int, timers: Timers): Outcome {
    if e.electionInProgress then Outcome(e, {})
    else
      var e1 := e.(electionInProgress := true, okOpen := true);
      if Higher(e) == {} then BecomeLeader(e1, now, true, timers)
      else Outcome(e1.(wait := AwaitOk(now + timers.electionTimeout)),
                   ToAll(e.id, Higher(e), ElectionMsg(e.priority)))
  }

  /** StartElection returns. okChan stays open when becomeLeader was called directly. */
  function Return(e: Elector): Elector {
    e.(electionInProgress := false, cancelOpen := false,
       okOpen := e.okOpen && e.wait.AwaitCancel? && e.wait.direct, wait := Idle)
  }

  /** The context of the election ended during the first select: StartElection returns and leaves okChan open. */
  function ContextDone(e: Elector): Elector {
    e.(electionInProgress := false, wait := Idle)
  }

  function ElectionTimeout(e: Elector, now: int, timers: Timers): Outcome {
    BecomeLeader(e, now, false, timers)
  }

  function CoordinatorWaitTimeout(e: Elector): Elector {
    Return(e).(role := Master)
  }

  function HandleElection(e: Elector, from: Uuid, priority: int, now: int, timers: Timers): Outcome {
    if e.priority > priority then
      var started := if e.role != Master then StartElection(e, now, timers) else Outcome(e, {});
      Outcome(started.elector, {Message(e.id, from, OkMsg)} + started.out)
    else Outcome(e, {})
  }

  /** A token in okChan ends the first select; during becomeLeader it stays unread. */
  function HandleOk(e: Elector, from: Uuid): Elector {
    if from != e.id && e.okOpen && e.wait.AwaitOk? then Return(e) else e
  }

  /** The priority of a sender that is not in the peer table is -1. */
  function SenderPriority(e: Elector, from: Uuid): int {
    if from in e.peers then e.peers[from] else -1
  }

  function RolesAfter(roles: map<Uuid, Role>, from: Uuid): map<Uuid, Role> {
    map p | p in roles :: if p == from then Master else Storage
  }

  function HandleCoordinator(e: Elector, from: Uuid): Outcome {
    var senderPriority := SenderPriority(e, from);
    if senderPriority != -1 && senderPriority < e.priority then
      Outcome(e, if e.role == Master then ToAll(e.id, e.peers.Keys, CoordinatorMsg) else {})
    else
      var e1 := if e.wait.Idle? then e.(electionInProgress := false) else Return(e);
      Outcome(e1.(peerRoles := RolesAfter(e.peerRoles, from), role := Storage), {})
  }
}

/** The elector object. The two selects end its methods: StartElection stops where it would block and
    ElectionTimeout, CoordinatorWaitTimeout and the tokens that the handlers put into its channels,
    which are consumed at once, resume it. */
module BullyElection {
  import opened Uuids
  import opened Election

  class BullyElector {
    const id: Uuid
    const priority: int
    const peers: map<Uuid, int>
    var peerRoles: map<Uuid, Role>
    var role: Role
    var electionInProgress: bool
    var okOpen: bool
    var cancelOpen: bool
    var wait: Wait

    constructor (id: Uuid, priority: int, peers: map<Uuid, int>, peerRoles: map<Uuid, Role>, role: Role)
      requires peerRoles.Keys == peers.Keys
      ensures State() == Elector(id, priority, peers, peerRoles, role, false, false, false, Idle) && State().Valid()
    {
      this.id, this.priority, this.peers, this.peerRoles, this.role := id, priority, peers, peerRoles, role;
      electionInProgress, okOpen, cancelOpen, wait := false, false, false, Idle;
    }

    ghost function State(): Elector
      reads this
    {
      Elector(id, priority, peers, peerRoles, role, electionInProgress, okOpen, cancelOpen, wait)
    }

    method BroadcastMessage(body: Body) returns (out: set<Message>)
      ensures out == ToAll(id, peers.Keys, body)
    {
      out := {};
      var todo := peers.Keys;
      while todo != {}
        invariant todo <= peers.Keys && out == ToAll(id, peers.Keys - todo, body)
      {
        var peer :| peer in todo;
        todo := todo - {peer};
        out := out + {Message(id, peer, body)};
      }
    }

    method StartElection(now: int) returns (out: set<Message>)
      requires State().Valid()
      modifies this
      ensures State().Valid() && Outcome(State(), out) == Election.StartElection(old(State()), now, TIMERS)
    {
      if electionInProgress {
        return {};
      }
      electionInProgress := true;
      okOpen := true;
      var higherPriorityExists := false;
      out := {};
      var todo := peers.Keys;
      while todo != {}
        invariant todo <= peers.Keys
        invariant out == ToAll(id, Higher(State()) - todo, ElectionMsg(priority))
        invariant higherPriorityExists <==> Higher(State()) - todo != {}
      {
        var peer :| peer in todo;
        todo := todo - {peer};
        if peers[peer] > priority {
          assert peer in Higher(State()) - todo;
          higherPriorityExists := true;
          out := out + {Message(id, peer, ElectionMsg(priority))};
        }
      }
      assert Higher(State()) - todo == Higher(old(State()));
      if !higherPriorityExists {
        out := BecomeLeader(now, true);
      } else {
        wait := AwaitOk(now + TIMERS.electionTimeout);
      }
    }

    method BecomeLeader(now: int, direct: bool) returns (out: set<Message>)
      modifies `cancelOpen, `wait
      ensures Outcome(State(), out) == Election.BecomeLeader(old(State()), now, direct, TIMERS)
    {
      cancelOpen := true;
      out := BroadcastMessage(CoordinatorMsg);
      wait := AwaitCancel(now + TIMERS.coordinatorWaitTimeout, direct);
    }

    /** What runs after either select: the deferred statements, and closing okChan unless becomeLeader
        was called directly. */
    method Return()
      modifies `electionInProgress, `okOpen, `cancelOpen, `wait
      ensures State() == Election.Return(old(State()))
    {
      cancelOpen := false;
      if !wait.AwaitCancel? || !wait.direct {
        okOpen := false;
      }
      electionInProgress := false;
      wait := Idle;
    }

    method ElectionTimeout(now: int) returns (out: set<Message>)
      requires State().Valid() && wait.AwaitOk?
      modifies this
      ensures State().Valid() && Outcome(State(), out) == Election.ElectionTimeout(old(State()), now, TIMERS)
    {
      out := BecomeLeader(now, false);
    }

    method ContextDone()
      requires State().Valid() && wait.AwaitOk?
      modifies this
      ensures State().Valid() && State() == Election.ContextDone(old(State()))
    {
      electionInProgress := false;
      wait := Idle;
    }

    method CoordinatorWaitTimeout()
      requires State().Valid() && wait.AwaitCancel?
      modifies this
      ensures State().Valid() && State() == Election.CoordinatorWaitTimeout(old(State()))
    {
      role := Master;
      Return();
    }

    method HandleElection(from: Uuid, senderPriority: int, now: int) returns (out: set<Message>)
      requires State().Valid()
      modifies this
      ensures State().Valid()
      ensures Outcome(State(), out) == Election.HandleElection(old(State()), from, senderPriority, now, TIMERS)
    {
      out := {};
      if priority > senderPriority {
        out := {Message(id, from, OkMsg)};
        if !electionInProgress && role != Master {
          var started := StartElection(now);
          out := out + started;
        }
      }
    }

    method HandleOk(from: Uuid)
      requires State().Valid()
      modifies this
      ensures State().Valid() && State() == Election.HandleOk(old(State()), from)
    {
      if from == id {
        return;
      }
      if okOpen {
        if wait.AwaitOk? {
          Return();
        }
      }
    }

    method HandleCoordinator(from: Uuid) returns (out: set<Message>)
      requires State().Valid()
      modifies this
      ensures State().Valid() && Outcome(State(), out) == Election.HandleCoordinator(old(State()), from)
    {
      out := {};
      var senderPriority := -1;
      var todo := peers.Keys;
      while todo != {}
        invariant todo <= peers.Keys && senderPriority == -1
        invariant from in peers ==> from in todo
      {
        var peer :| peer in todo;
        if peer == from {
          senderPriority := peers[peer];
          break;
        }
        todo := todo - {peer};
      }
      assert senderPriority == SenderPriority(State(), from);
      if senderPriority != -1 && senderPriority < priority {
        if role == Master {
          out := BroadcastMessage(CoordinatorMsg);
        }
        return;
      }
      ghost var before := State();
      electionInProgress := false;
      if cancelOpen || (okOpen && wait.AwaitOk?) {
        Return();
      }
      assert State() == if before.wait.Idle? then before.(electionInProgress := false) else Election.Return(before);
      UpdatePeerRoles(from);
      if role == Master {
        role := Storage;
      }
    }

    /** The sender becomes the one master of the peer table. */
    method UpdatePeerRoles(from: Uuid)
      requires peerRoles.Keys == peers.Keys
      modifies `peerRoles
      ensures peerRoles == RolesAfter(old(peerRoles), from)
    {
      if from in peerRoles {
        peerRoles := peerRoles[from := Master];
      }
      var todo := peerRoles.Keys;
      while todo != {}
        invariant todo <= peerRoles.Keys == old(peerRoles).Keys
        invariant forall p | p in peerRoles && p !in todo :: peerRoles[p] == if p == from then Master else Storage
        invariant from in peerRoles ==> peerRoles[from] == Master
      {
        var peer :| peer in todo;
        todo := todo - {peer};
        if peer != from && peerRoles[peer] == Master {
          peerRoles := peerRoles[peer := Storage];
        }
      }
    }
  }
}
