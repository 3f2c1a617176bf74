/** The lock protocol as a state machine: every node runs the handlers of LockState, links are FIFO
    and deliver each message once, a handler is one step, membership is fixed, and one wall clock
    never runs backwards. */
module LockSystem {
  import opened Uuids
  import opened Lamport
  import opened LockState

  /** `entered` and `grants` are history: who is between a successful EnterCriticalSection and
      ReleaseLock, with which request, and the requests granted on each resource in order. */
  datatype Sys = Sys(
    nodes: map<Uuid, NodeState>,
    links: map<(Uuid, Uuid), seq<Packet>>,
    now: int,
    limit: Limit,
    entered: map<(Uuid, string), LockRequest>,
    grants: map<string, seq<LockRequest>>)

  /** A node tells another one an abort or anything outside the lock protocol, such as a heartbeat, on the
      same link. OtherSend and OtherReceive are its traffic with clients. */
  datatype Event =
    | CallRequestLock(i: Uuid, r: string, order: seq<Uuid>)
    | CallReleaseLock(i: Uuid, r: string, order: seq<Uuid>)
    | CallEnter(i: Uuid, r: string, order: seq<Uuid>)
    | CheckTimeouts(i: Uuid, rs: seq<string>, orders: seq<seq<Uuid>>)
    | Deliver(from: Uuid, i: Uuid)
    | DeliverAbort(from: Uuid, i: Uuid, rs: seq<string>, orders: seq<seq<Uuid>>)
    | AbortSelf(i: Uuid, rs: seq<string>, orders: seq<seq<Uuid>>)
    | Tell(i: Uuid, to: Uuid, body: MessageBody)
    | OtherSend(i: Uuid)
    | OtherReceive(i: Uuid, time: int)
    | TimePasses(later: int)

  function Link(s: Sys, i: Uuid, j: Uuid): seq<Packet> {
    if (i, j) in s.links then s.links[(i, j)] else []
  }

  function Grants(s: Sys, r: string): seq<LockRequest> {
    if r in s.grants then s.grants[r] else []
  }

  function PacketsTo(out: seq<Send>, j: Uuid): seq<Packet> {
    if out == [] then []
    else PacketsTo(out[..|out| - 1], j) + if out[|out| - 1].to == j then [out[|out| - 1].packet] else []
  }

  ghost predicate Linked(s: Sys) {
    forall i, j | i in s.nodes && j in s.nodes :: (i, j) in s.links
  }

  ghost predicate Init(s: Sys) {
    && (forall i | i in s.nodes :: s.nodes[i].id == i && s.nodes[i].peers.Keys == s.nodes.Keys - {i})
    && (forall i | i in s.nodes :: s.nodes[i].lockQueue == map[] && s.nodes[i].pendingAcks == map[])
    && (forall i | i in s.nodes :: s.nodes[i].lockHolders == map[] && s.nodes[i].waitForGraph == map[])
    && (forall i, j | i in s.nodes && j in s.nodes :: (i, j) in s.links && s.links[(i, j)] == [])
    && s.entered == map[] && s.grants == map[]
  }

  predicate Carries(link: seq<Packet>, k: int, body: MessageBody) {
    0 <= k < |link| && link[k].body == body
  }

  ghost predicate InFlight(link: seq<Packet>, body: MessageBody) {
    exists k :: Carries(link, k, body)
  }

  ghost predicate NoneOf(q: seq<LockRequest>, id: Uuid) {
    forall p | p in q :: p.nodeID != id
  }

  ghost predicate NoOwn(n: NodeState, r: string) {
    NoneOf(Queue(n, r), n.id)
  }

  /** No request on `r` is on its way out and no ack to one on its way back. */
  ghost predicate NothingPending(out: seq<Packet>, back: seq<Packet>, r: string) {
    && !InFlight(back, AckMsg(r))
    && forall p: LockRequest | p.resourceID == r :: !InFlight(out, RequestMsg(p))
  }

  /** What the caller of RequestLock must see to: it has no entry of its own queued, and every ack to
      its earlier request on the resource has arrived. Acks carry no request id. */
  ghost predicate MayRequest(s: Sys, i: Uuid, r: string) {
    && i in s.nodes
    && NoOwn(s.nodes[i], r)
    && forall j | j in s.nodes && j != i :: NothingPending(Link(s, i, j), Link(s, j, i), r)
  }

  /** The steps the program can take; nothing here limits when a caller calls. */
  ghost predicate Enabled(s: Sys, e: Event) {
    match e
    case CallRequestLock(i, r, order) => i in s.nodes && Enumerates(order, s.nodes[i].peers.Keys)
    case CallReleaseLock(i, r, order) => i in s.nodes && Enumerates(order, s.nodes[i].peers.Keys)
    case CallEnter(i, r, order) => i in s.nodes && Enumerates(order, s.nodes[i].peers.Keys)
    case CheckTimeouts(i, rs, orders) =>
      && i in s.nodes
      && Enumerates(rs, s.nodes[i].lockQueue.Keys)
      && |orders| == |SweepQueues(s.nodes[i], rs, s.now, s.limit).toRelease|
      && forall o | o in orders :: Enumerates(o, s.nodes[i].peers.Keys)
    case Deliver(j, i) =>
      i in s.nodes && j in s.nodes && i != j && Link(s, j, i) != [] && !Link(s, j, i)[0].body.AbortMsg?
    case DeliverAbort(j, i, rs, orders) =>
      && i in s.nodes && j in s.nodes && i != j && Link(s, j, i) != [] && Link(s, j, i)[0].body.AbortMsg?
      && ReleasesAll(s.nodes[i], rs, orders)
    case AbortSelf(i, rs, orders) => i in s.nodes && ReleasesAll(s.nodes[i], rs, orders)
    case Tell(i, to, body) => i in s.nodes && to in s.nodes && i != to && (body.AbortMsg? || body.OtherMsg?)
    case OtherSend(i) => i in s.nodes
    case OtherReceive(i, time) => i in s.nodes
    case TimePasses(later) => later >= s.now
  }

  ghost predicate ReleasesAll(n: NodeState, rs: seq<string>, orders: seq<seq<Uuid>>) {
    && Enumerates(rs, OwnResources(n))
    && |orders| == |rs|
    && forall o | o in orders :: Enumerates(o, n.peers.Keys)
  }

  /** The messages of `i` join its links. */
  function Extended(links: map<(Uuid, Uuid), seq<Packet>>, i: Uuid, out: seq<Send>): map<(Uuid, Uuid), seq<Packet>> {
    map k | k in links :: if k.0 == i then links[k] + PacketsTo(out, k.1) else links[k]
  }

  /** Node `i` takes its new state and sends its messages. */
  function Post(s: Sys, i: Uuid, o: Outcome): Sys {
    s.(nodes := s.nodes[i := o.node], links := Extended(s.links, i, o.out))
  }

  /** Take the first message off a link. */
  function Pop(s: Sys, j: Uuid, i: Uuid): Sys
    requires (j, i) in s.links && s.links[(j, i)] != []
  {
    s.(links := s.links[(j, i) := s.links[(j, i)][1..]])
  }

  function WithClock(s: Sys, i: Uuid, time: int): Sys
    requires i in s.nodes
  {
    s.(nodes := s.nodes[i := s.nodes[i].(logicalTime := time)])
  }

  function Handle(n: NodeState, p: Packet): Outcome {
    var n1 := Received(n, p.logicalTime);
    match p.body
    case RequestMsg(req) => HandleLockRequest(n1, p.from, req)
    case AckMsg(r) => Outcome(HandleLockAck(n1, p.from, r), [])
    case AcquiredMsg(r) => Outcome(HandleLockAcquired(n1, p.from, r), [])
    case ReleaseMsg(r) => Outcome(HandleLockRelease(n1, p.from, r), [])
    case AbortMsg => Outcome(n1, [])
    case OtherMsg => Outcome(n1, [])
  }

  /** Node `i` takes the first message off the link from `j` and handles it. An abort only moves the
      clock here; the releases it causes follow. */
  function Taken(s: Sys, j: Uuid, i: Uuid): Sys
    requires i in s.nodes && (j, i) in s.links && s.links[(j, i)] != []
  {
    Post(Pop(s, j, i), i, Handle(s.nodes[i], Link(s, j, i)[0]))
  }

  /** A further call of EnterCriticalSection with the request granted last is no new grant. */
  function Granted(s: Sys, i: Uuid, r: string, q: LockRequest): Sys {
    var gs := Grants(s, r);
    s.(entered := s.entered[(i, r) := q],
       grants := if gs != [] && gs[|gs| - 1] == q then s.grants else s.grants[r := gs + [q]])
  }

  function Left(s: Sys, i: Uuid, rs: seq<string>): Sys {
    s.(entered := map k | k in s.entered && !(k.0 == i && k.1 in rs) :: s.entered[k])
  }

  function Next(s: Sys, e: Event): Sys
    requires Enabled(s, e)
  {
    match e
    case CallRequestLock(i, r, order) => Post(s, i, RequestLock(s.nodes[i], r, s.now, order))
    case CallReleaseLock(i, r, order) => Left(Post(s, i, ReleaseLock(s.nodes[i], r, order)), i, [r])
    case CallEnter(i, r, order) =>
      var n1 := DropExpiredHeads(s.nodes[i], r, s.now, s.limit);
      var s1 := Post(s, i, EnterCriticalSection(s.nodes[i], r, s.now, s.limit, order));
      if HeadWithAllAcks(n1, r) then Granted(s1, i, r, Queue(n1, r)[0]) else s1
    case CheckTimeouts(i, rs, orders) =>
      var swept := SweepQueues(s.nodes[i], rs, s.now, s.limit);
      Post(s, i, BroadcastReleases(swept.node, swept.toRelease, orders))
    case Deliver(j, i) => Taken(s, j, i)
    case DeliverAbort(j, i, rs, orders) =>
      var s1 := Taken(s, j, i);
      Left(Post(s1, i, ReleaseAll(s1.nodes[i], rs, orders)), i, rs)
    case AbortSelf(i, rs, orders) => Left(Post(s, i, ReleaseAll(s.nodes[i], rs, orders)), i, rs)
    case Tell(i, to, body) => Post(s, i, SendOne(s.nodes[i], to, body))
    case OtherSend(i) => WithClock(s, i, s.nodes[i].logicalTime + 1)
    case OtherReceive(i, time) => WithClock(s, i, Received(s.nodes[i], time).logicalTime)
    case TimePasses(later) => s.(now := later)
  }

  ghost predicate Disciplined(s: Sys, e: Event) {
    e.CallRequestLock? ==> MayRequest(s, e.i, e.r)
  }

  /** `es` leads from `s` to `t`; callers keep the discipline of MayRequest when `disciplined`. */
  ghost predicate Run(s: Sys, es: seq<Event>, t: Sys, disciplined: bool)
    decreases |es|
  {
    if es == [] then s == t
    else
      && Enabled(s, es[0])
      && (disciplined ==> Disciplined(s, es[0]))
      && Run(Next(s, es[0]), es[1..], t, disciplined)
  }

  /** A disciplined run is a run. */
  lemma {:induction false} AnyRun(s: Sys, es: seq<Event>, t: Sys)
    requires Run(s, es, t, true)
    ensures Run(s, es, t, false)
    decreases |es|
  {
    if es != [] {
      AnyRun(Next(s, es[0]), es[1..], t);
    }
  }
}
