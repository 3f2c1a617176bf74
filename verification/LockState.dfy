/** The lock state of one node and what each handler of backend/dfs/node/node.go does to it.
    The class LockNode proves its methods against these functions. */
module LockState {
  import opened Uuids
  import opened Lamport
  import Sorting

  datatype MessageBody =
    | RequestMsg(request: LockRequest)
    | AckMsg(resourceID: string)
    | AcquiredMsg(resourceID: string)
    | ReleaseMsg(resourceID: string)
    | AbortMsg
    | OtherMsg

  /** Bodies that change no queue and no acks. */
  predicate Neutral(body: MessageBody) {
    body.AcquiredMsg? || body.AbortMsg? || body.OtherMsg?
  }

  datatype Packet = Packet(from: Uuid, body: MessageBody, logicalTime: int)

  datatype Send = Send(to: Uuid, packet: Packet)

  /** How long a request lives. The code has `After` 30 seconds; `Never` is the protocol without expiry. */
  datatype Limit = Never | After(duration: int)

  const LOCK_TIMEOUT := After(30_000_000_000)

  datatype NodeState = NodeState(
    id: Uuid,
    priority: int,
    peers: map<Uuid, int>,
    logicalTime: int,
    lockQueue: map<string, seq<LockRequest>>,
    pendingAcks: map<string, set<Uuid>>,
    lockHolders: map<string, Uuid>,
    waitForGraph: map<Uuid, set<Uuid>>)

  /** A new node state with the messages the node sent, in sending order. */
  datatype Outcome = Outcome(node: NodeState, out: seq<Send>)

  function Queue(n: NodeState, r: string): seq<LockRequest> {
    if r in n.lockQueue then n.lockQueue[r] else []
  }

  function Acks(n: NodeState, r: string): set<Uuid> {
    if r in n.pendingAcks then n.pendingAcks[r] else {}
  }

  predicate Expired(req: LockRequest, now: int, limit: Limit) {
    limit.After? && now - req.requestedAt > limit.duration
  }

  predicate Own(n: NodeState, r: string, req: LockRequest) {
    req in Queue(n, r) && req.nodeID == n.id
  }

  /** The iteration order of a Go map or of the goroutines of a broadcast. */
  ghost predicate Enumerates<T(!new)>(order: seq<T>, elements: set<T>) {
    && (forall i, j | 0 <= i < j < |order| :: order[i] != order[j])
    && (forall x :: x in order <==> x in elements)
  }

  // ----- clock and sending -----

  function Received(n: NodeState, time: int): NodeState {
    n.(logicalTime := (if time > n.logicalTime then time else n.logicalTime) + 1)
  }

  function SendOne(n: NodeState, to: Uuid, body: MessageBody): Outcome {
    var n1 := n.(logicalTime := n.logicalTime + 1);
    Outcome(n1, [Send(to, Packet(n.id, body, n1.logicalTime))])
  }

  /** Every peer gets its own logical time. */
  function Broadcast(n: NodeState, body: MessageBody, order: seq<Uuid>): Outcome {
    if order == [] then Outcome(n, [])
    else
      var before := Broadcast(n, body, order[..|order| - 1]);
      var last := SendOne(before.node, order[|order| - 1], body);
      Outcome(last.node, before.out + last.out)
  }

  // ----- queue operations -----

  function Enqueue(q: seq<LockRequest>, req: LockRequest): seq<LockRequest> {
    Sorting.SliceStable(q + [req], CompareLockRequests)
  }

  function RemoveFirst(q: seq<LockRequest>, id: Uuid): seq<LockRequest> {
    if q == [] then []
    else if q[0].nodeID == id then q[1..]
    else [q[0]] + RemoveFirst(q[1..], id)
  }

  lemma {:induction false} RemoveFirstAt(q: seq<LockRequest>, i: nat, id: Uuid)
    requires i < |q| && q[i].nodeID == id && forall k | 0 <= k < i :: q[k].nodeID != id
    ensures RemoveFirst(q, id) == q[..i] + q[i + 1..]
  {
    if i > 0 {
      assert q[0].nodeID != id;
      RemoveFirstAt(q[1..], i - 1, id);
      assert [q[0]] + q[1..][..i - 1] == q[..i];
    }
  }

  lemma {:induction false} RemoveFirstNone(q: seq<LockRequest>, id: Uuid)
    requires forall k | 0 <= k < |q| :: q[k].nodeID != id
    ensures RemoveFirst(q, id) == q
  {
    if q != [] {
      RemoveFirstNone(q[1..], id);
    }
  }

  function Unexpired(q: seq<LockRequest>, now: int, limit: Limit): seq<LockRequest> {
    if q == [] then []
    else
      var rest := Unexpired(q[..|q| - 1], now, limit);
      if Expired(q[|q| - 1], now, limit) then rest else rest + [q[|q| - 1]]
  }

  /** The entries of `id`, in their order. */
  function Of(q: seq<LockRequest>, id: Uuid): seq<LockRequest> {
    if q == [] then []
    else Of(q[..|q| - 1], id) + if q[|q| - 1].nodeID == id then [q[|q| - 1]] else []
  }

  /** How many expired entries of `q` belong to `id`. */
  function ExpiredOf(q: seq<LockRequest>, id: Uuid, now: int, limit: Limit): nat {
    if q == [] then 0
    else ExpiredOf(q[..|q| - 1], id, now, limit)
         + if q[|q| - 1].nodeID == id && Expired(q[|q| - 1], now, limit) then 1 else 0
  }

  // ----- the caller's operations -----

  function NewRequest(n: NodeState, r: string, now: int): LockRequest {
    LockRequest(r, n.id, n.logicalTime + 1, now)
  }

  /** The request is queued at the requester and the acks are forgotten. */
  function WithRequest(n: NodeState, r: string, now: int): NodeState {
    n.(logicalTime := n.logicalTime + 1,
       lockQueue := n.lockQueue[r := Enqueue(Queue(n, r), NewRequest(n, r, now))],
       pendingAcks := n.pendingAcks[r := {}])
  }

  function RequestLock(n: NodeState, r: string, now: int, order: seq<Uuid>): Outcome {
    Broadcast(WithRequest(n, r, now), RequestMsg(NewRequest(n, r, now)), order)
  }

  /** The queue part of a release: without an entry of `id` nothing changes. */
  function WithoutFirst(n: NodeState, r: string, id: Uuid): NodeState {
    if r in n.lockQueue then n.(lockQueue := n.lockQueue[r := RemoveFirst(n.lockQueue[r], id)]) else n
  }

  function ReleaseLock(n: NodeState, r: string, order: seq<Uuid>): Outcome {
    var n1 := WithoutFirst(n, r, n.id);
    Broadcast(n1.(pendingAcks := n1.pendingAcks - {r}), ReleaseMsg(r), order)
  }

  function DropExpiredHeads(n: NodeState, r: string, now: int, limit: Limit): NodeState
    decreases |Queue(n, r)|
  {
    var q := Queue(n, r);
    if q == [] || !Expired(q[0], now, limit) then n
    else
      var acks := if q[0].nodeID == n.id then n.pendingAcks - {r} else n.pendingAcks;
      DropExpiredHeads(n.(lockQueue := n.lockQueue[r := q[1..]], pendingAcks := acks), r, now, limit)
  }

  predicate HeadWithAllAcks(n: NodeState, r: string) {
    && Queue(n, r) != []
    && Queue(n, r)[0].nodeID == n.id
    && |Acks(n, r)| >= |n.peers|
  }

  /** The broadcast goes out only when the caller may enter. */
  function EnterCriticalSection(n: NodeState, r: string, now: int, limit: Limit, order: seq<Uuid>): Outcome {
    var n1 := DropExpiredHeads(n, r, now, limit);
    if HeadWithAllAcks(n1, r) then Broadcast(n1, AcquiredMsg(r), order) else Outcome(n1, [])
  }

  // ----- the message handlers -----

  function AddEdge(g: map<Uuid, set<Uuid>>, waiter: Uuid, holder: Uuid): map<Uuid, set<Uuid>> {
    g[waiter := (if waiter in g then g[waiter] else {}) + {holder}]
  }

  function RemoveHolder(g: map<Uuid, set<Uuid>>, holder: Uuid): map<Uuid, set<Uuid>> {
    map w | w in g :: g[w] - {holder}
  }

  function HandleLockRequest(n: NodeState, from: Uuid, req: LockRequest): Outcome {
    var r := req.resourceID;
    var waits := r in n.lockHolders && n.lockHolders[r] != req.nodeID;
    var n1 := n.(lockQueue := n.lockQueue[r := Enqueue(Queue(n, r), req)],
                 waitForGraph := if waits then AddEdge(n.waitForGraph, req.nodeID, n.lockHolders[r])
                                 else n.waitForGraph);
    if from in n.peers then SendOne(n1, from, AckMsg(r)) else Outcome(n1, [])
  }

  function HandleLockAck(n: NodeState, from: Uuid, r: string): NodeState {
    n.(pendingAcks := n.pendingAcks[r := Acks(n, r) + {from}])
  }

  function HandleLockAcquired(n: NodeState, from: Uuid, r: string): NodeState {
    n.(lockHolders := n.lockHolders[r := from])
  }

  function HandleLockRelease(n: NodeState, from: Uuid, r: string): NodeState {
    WithoutFirst(n.(waitForGraph := RemoveHolder(n.waitForGraph, from),
                    lockHolders := n.lockHolders - {r}), r, from)
  }

  function ReleaseAll(n: NodeState, rs: seq<string>, orders: seq<seq<Uuid>>): Outcome
    requires |orders| == |rs|
  {
    if rs == [] then Outcome(n, [])
    else
      var k := |rs| - 1;
      var before := ReleaseAll(n, rs[..k], orders[..k]);
      var last := ReleaseLock(before.node, rs[k], orders[k]);
      Outcome(last.node, before.out + last.out)
  }

  predicate HasOwn(n: NodeState, r: string) {
    exists k | 0 <= k < |Queue(n, r)| :: Queue(n, r)[k].nodeID == n.id
  }

  function OwnResources(n: NodeState): set<string> {
    set r | r in n.lockQueue && HasOwn(n, r)
  }

  // ----- the periodic sweep -----

  datatype Swept = Swept(node: NodeState, toRelease: seq<string>)

  function Repeat(r: string, n: nat): (s: seq<string>)
    ensures |s| == n && forall x :: x in s ==> x == r
  {
    if n == 0 then [] else Repeat(r, n - 1) + [r]
  }

  function SweepResource(n: NodeState, r: string, now: int, limit: Limit): Swept {
    var mine := ExpiredOf(Queue(n, r), n.id, now, limit);
    Swept(n.(lockQueue := n.lockQueue[r := Unexpired(Queue(n, r), now, limit)],
             pendingAcks := if mine > 0 then n.pendingAcks - {r} else n.pendingAcks),
          Repeat(r, mine))
  }

  function SweepQueues(n: NodeState, rs: seq<string>, now: int, limit: Limit): Swept {
    if rs == [] then Swept(n, [])
    else
      var before := SweepQueues(n, rs[..|rs| - 1], now, limit);
      var last := SweepResource(before.node, rs[|rs| - 1], now, limit);
      Swept(last.node, before.toRelease + last.toRelease)
  }

  function BroadcastReleases(n: NodeState, rs: seq<string>, orders: seq<seq<Uuid>>): Outcome
    requires |orders| == |rs|
  {
    if rs == [] then Outcome(n, [])
    else
      var k := |rs| - 1;
      var before := BroadcastReleases(n, rs[..k], orders[..k]);
      var last := Broadcast(before.node, ReleaseMsg(rs[k]), orders[k]);
      Outcome(last.node, before.out + last.out)
  }
}
