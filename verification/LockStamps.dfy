/** What each event of the lock protocol does to the clock of its node and to the messages on its links. */
module LockStamps {
  import opened Uuids
  import opened LockState
  import opened LockSystem
  import opened LockEffects

  // ----- what one handler stamps -----

  /** A request travels with a later time than its own. */
  predicate Ahead(p: Packet) {
    p.body.RequestMsg? ==> p.body.request.logicalTime < p.logicalTime
  }

  /** The clock does not go back, and every message has a time after the old clock and not after the new. */
  ghost predicate Stamped(before: int, o: Outcome) {
    && before <= o.node.logicalTime
    && forall x | x in o.out :: before < x.packet.logicalTime <= o.node.logicalTime && Ahead(x.packet)
  }

  lemma JoinStamped(before: int, o1: Outcome, o2: Outcome)
    requires Stamped(before, o1) && Stamped(o1.node.logicalTime, o2)
    ensures Stamped(before, Outcome(o2.node, o1.out + o2.out))
  {
  }

  lemma {:induction false} BroadcastStamped(n: NodeState, body: MessageBody, order: seq<Uuid>)
    requires body.RequestMsg? ==> body.request.logicalTime <= n.logicalTime
    ensures Stamped(n.logicalTime, Broadcast(n, body, order))
  {
    if order != [] {
      BroadcastStamped(n, body, order[..|order| - 1]);
      BroadcastHarmless(n, body, order[..|order| - 1]);
      var before := Broadcast(n, body, order[..|order| - 1]);
      JoinStamped(n.logicalTime, before, SendOne(before.node, order[|order| - 1], body));
    }
  }

  lemma ReleaseStamped(n: NodeState, r: string, order: seq<Uuid>)
    ensures Stamped(n.logicalTime, ReleaseLock(n, r, order))
  {
    var n1 := WithoutFirst(n, r, n.id);
    BroadcastStamped(n1.(pendingAcks := n1.pendingAcks - {r}), ReleaseMsg(r), order);
  }

  lemma {:induction false} ReleaseAllStamped(n: NodeState, rs: seq<string>, orders: seq<seq<Uuid>>)
    requires |orders| == |rs|
    ensures Stamped(n.logicalTime, ReleaseAll(n, rs, orders))
  {
    if rs != [] {
      var k := |rs| - 1;
      ReleaseAllStamped(n, rs[..k], orders[..k]);
      var before := ReleaseAll(n, rs[..k], orders[..k]);
      ReleaseStamped(before.node, rs[k], orders[k]);
      JoinStamped(n.logicalTime, before, ReleaseLock(before.node, rs[k], orders[k]));
    }
  }

  lemma {:induction false} BroadcastReleasesStamped(n: NodeState, rs: seq<string>, orders: seq<seq<Uuid>>)
    requires |orders| == |rs|
    ensures Stamped(n.logicalTime, BroadcastReleases(n, rs, orders))
  {
    if rs != [] {
      var k := |rs| - 1;
      BroadcastReleasesStamped(n, rs[..k], orders[..k]);
      var before := BroadcastReleases(n, rs[..k], orders[..k]);
      BroadcastStamped(before.node, ReleaseMsg(rs[k]), orders[k]);
      JoinStamped(n.logicalTime, before, Broadcast(before.node, ReleaseMsg(rs[k]), orders[k]));
    }
  }

  lemma {:induction false} DropClock(n: NodeState, r: string, now: int, limit: Limit)
    ensures DropExpiredHeads(n, r, now, limit).logicalTime == n.logicalTime
    decreases |Queue(n, r)|
  {
    var q := Queue(n, r);
    if q != [] && Expired(q[0], now, limit) {
      var acks := if q[0].nodeID == n.id then n.pendingAcks - {r} else n.pendingAcks;
      DropClock(n.(lockQueue := n.lockQueue[r := q[1..]], pendingAcks := acks), r, now, limit);
    }
  }

  lemma {:induction false} SweepClock(n: NodeState, rs: seq<string>, now: int, limit: Limit)
    ensures SweepQueues(n, rs, now, limit).node.logicalTime == n.logicalTime
  {
    if rs != [] {
      SweepClock(n, rs[..|rs| - 1], now, limit);
    }
  }

  lemma HandleStamped(n: NodeState, p: Packet)
    ensures Stamped(Received(n, p.logicalTime).logicalTime, Handle(n, p))
  {
  }

  // ----- events -----

  function Clock(s: Sys, i: Uuid): int
    requires i in s.nodes
  {
    s.nodes[i].logicalTime
  }

  predicate Takes(s: Sys, e: Event, from: Uuid, p: Packet) {
    (e.Deliver? || e.DeliverAbort?) && e.from == from && Link(s, from, e.i) != [] && Link(s, from, e.i)[0] == p
  }

  /** From `s` to `s'` the node `i` puts `p` on its link to `j`. */
  ghost predicate Sends(s: Sys, s': Sys, i: Uuid, j: Uuid, p: Packet) {
    exists k :: |Link(s, i, j)| <= k < |Link(s', i, j)| && Link(s', i, j)[k] == p
  }

  /** The event moves the clock of its node. */
  predicate Ticks(s: Sys, s': Sys, i: Uuid) {
    i in s.nodes && i in s'.nodes && Clock(s, i) < Clock(s', i)
  }

  /** The time an event takes if it moves the clock: a receive the time right after it, the others the
      next one. */
  function Stamp(s: Sys, e: Event): int
    requires Enabled(s, e) && !e.TimePasses?
  {
    if e.Deliver? || e.DeliverAbort? then Received(s.nodes[e.i], Link(s, e.from, e.i)[0].logicalTime).logicalTime
    else if e.OtherReceive? then Received(s.nodes[e.i], e.time).logicalTime
    else Clock(s, e.i) + 1
  }

  /** When an event moves the clock of its node: it asks, receives, or has something to send and a peer to
      send it to. */
  predicate Moves(s: Sys, e: Event)
    requires Enabled(s, e) && !e.TimePasses?
  {
    var n := s.nodes[e.i];
    match e
    case CallReleaseLock(_, _, _) => n.peers != map[]
    case CallEnter(_, r, _) => n.peers != map[] && HeadWithAllAcks(DropExpiredHeads(n, r, s.now, s.limit), r)
    case CheckTimeouts(_, rs, _) => n.peers != map[] && SweepQueues(n, rs, s.now, s.limit).toRelease != []
    case AbortSelf(_, _, _) => n.peers != map[] && OwnResources(n) != {}
    case _ => true
  }

  /** The logical time of an event: its stamp, or the clock it leaves alone. */
  function Reading(s: Sys, e: Event): int
    requires Enabled(s, e) && !e.TimePasses?
  {
    if Moves(s, e) then Stamp(s, e) else Clock(s, e.i)
  }

  // ----- what an event does to the clock and the links of its node -----

  /** The node of the event ends up as `o` has it, and the messages of `o` join its links. */
  ghost predicate Does(s: Sys, s': Sys, i: Uuid, o: Outcome) {
    && s'.nodes.Keys == s.nodes.Keys && s'.links.Keys == s.links.Keys
    && i in s.nodes && s'.nodes[i].logicalTime == o.node.logicalTime
    && (forall j | j in s.nodes && j != i :: s'.nodes[j] == s.nodes[j])
    && (forall j | j in s.nodes :: Link(s', i, j) == Link(s, i, j) + PacketsTo(o.out, j))
    && OthersLose(s, s', i)
  }

  /** The links of the nodes other than `i` get nothing new. */
  ghost predicate OthersLose(s: Sys, s': Sys, i: Uuid) {
    forall x, y, p | x in s.nodes && y in s.nodes && x != i && p in Link(s', x, y) :: p in Link(s, x, y)
  }

  lemma PostDoes(s: Sys, i: Uuid, o: Outcome)
    requires Linked(s) && i in s.nodes
    ensures Does(s, Post(s, i, o), i, o)
  {
  }

  // ----- the stamp of an event -----

  /** `stamp` is a time that the clock of `i` passes from `s` to `s'`, before every message it sends. */
  ghost predicate StampOk(s: Sys, s': Sys, i: Uuid, stamp: int) {
    && i in s.nodes && i in s'.nodes
    && (Ticks(s, s', i) ==> Clock(s, i) < stamp <= Clock(s', i))
    && (forall j, p | j in s.nodes && Sends(s, s', i, j, p) :: Ticks(s, s', i) && stamp <= p.logicalTime && Ahead(p))
    && (forall j | j in s.nodes :: Link(s, i, j) <= Link(s', i, j))
    && OthersLose(s, s', i)
  }

  /** The system keeps its nodes and links, and no clock goes back. */
  ghost predicate Onward(s: Sys, s': Sys) {
    s.nodes.Keys == s'.nodes.Keys && Linked(s') && forall i | i in s.nodes :: Clock(s, i) <= Clock(s', i)
  }

  lemma DoesStamp(s: Sys, s': Sys, i: Uuid, o: Outcome, base: int, stamp: int)
    requires Linked(s) && Does(s, s', i, o) && Stamped(base, o) && Clock(s, i) <= base
    requires stamp == if base == Clock(s, i) then base + 1 else base
    ensures StampOk(s, s', i, stamp) && Onward(s, s')
  {
    forall j, p | j in s.nodes && Sends(s, s', i, j, p)
      ensures Ticks(s, s', i) && stamp <= p.logicalTime && Ahead(p)
    {
      var before, after := Link(s, i, j), Link(s', i, j);
      var k :| |before| <= k < |after| && after[k] == p;
      assert after == before + PacketsTo(o.out, j);
      var pks := PacketsTo(o.out, j);
      assert pks[k - |before|] == p && p in pks;
      PacketsToSent(o.out, j);
      var x :| x in o.out && x.packet == p;
      assert base < x.packet.logicalTime && Ahead(x.packet);
    }
  }

  lemma RequestStamps(s: Sys, e: Event)
    requires Linked(s) && Enabled(s, e) && e.CallRequestLock?
    ensures StampOk(s, Next(s, e), e.i, Stamp(s, e)) && Onward(s, Next(s, e)) && Ticks(s, Next(s, e), e.i)
  {
    var n := s.nodes[e.i];
    var o := RequestLock(n, e.r, s.now, e.order);
    BroadcastStamped(WithRequest(n, e.r, s.now), RequestMsg(NewRequest(n, e.r, s.now)), e.order);
    PostDoes(s, e.i, o);
    DoesStamp(s, Next(s, e), e.i, o, Clock(s, e.i), Stamp(s, e));
  }

  lemma ReleaseStamps(s: Sys, e: Event)
    requires Linked(s) && Enabled(s, e) && e.CallReleaseLock?
    ensures StampOk(s, Next(s, e), e.i, Stamp(s, e)) && Onward(s, Next(s, e))
  {
    var o := ReleaseLock(s.nodes[e.i], e.r, e.order);
    ReleaseStamped(s.nodes[e.i], e.r, e.order);
    PostDoes(s, e.i, o);
    LeftDoes(s, Post(s, e.i, o), e.i, o, [e.r]);
    DoesStamp(s, Next(s, e), e.i, o, Clock(s, e.i), Stamp(s, e));
  }

  lemma EnterStamps(s: Sys, e: Event)
    requires Linked(s) && Enabled(s, e) && e.CallEnter?
    ensures StampOk(s, Next(s, e), e.i, Stamp(s, e)) && Onward(s, Next(s, e))
  {
    var n1 := DropExpiredHeads(s.nodes[e.i], e.r, s.now, s.limit);
    var o := EnterCriticalSection(s.nodes[e.i], e.r, s.now, s.limit, e.order);
    DropClock(s.nodes[e.i], e.r, s.now, s.limit);
    BroadcastStamped(n1, AcquiredMsg(e.r), e.order);
    PostDoes(s, e.i, o);
    GrantedDoes(s, Post(s, e.i, o), Next(s, e), e.i, o);
    DoesStamp(s, Next(s, e), e.i, o, Clock(s, e.i), Stamp(s, e));
  }

  lemma GrantedDoes(s: Sys, s1: Sys, s': Sys, i: Uuid, o: Outcome)
    requires Does(s, s1, i, o) && s'.nodes == s1.nodes && s'.links == s1.links
    ensures Does(s, s', i, o)
  {
    assert forall j :: Link(s', i, j) == Link(s1, i, j);
  }

  lemma SweepStamps(s: Sys, e: Event)
    requires Linked(s) && Enabled(s, e) && e.CheckTimeouts?
    ensures StampOk(s, Next(s, e), e.i, Stamp(s, e)) && Onward(s, Next(s, e))
  {
    var swept := SweepQueues(s.nodes[e.i], e.rs, s.now, s.limit);
    var o := BroadcastReleases(swept.node, swept.toRelease, e.orders);
    SweepClock(s.nodes[e.i], e.rs, s.now, s.limit);
    BroadcastReleasesStamped(swept.node, swept.toRelease, e.orders);
    PostDoes(s, e.i, o);
    DoesStamp(s, Next(s, e), e.i, o, Clock(s, e.i), Stamp(s, e));
  }

  lemma AbortSelfStamps(s: Sys, e: Event)
    requires Linked(s) && Enabled(s, e) && e.AbortSelf?
    ensures StampOk(s, Next(s, e), e.i, Stamp(s, e)) && Onward(s, Next(s, e))
  {
    var o := ReleaseAll(s.nodes[e.i], e.rs, e.orders);
    ReleaseAllStamped(s.nodes[e.i], e.rs, e.orders);
    PostDoes(s, e.i, o);
    LeftDoes(s, Post(s, e.i, o), e.i, o, e.rs);
    DoesStamp(s, Next(s, e), e.i, o, Clock(s, e.i), Stamp(s, e));
  }

  lemma TellStamps(s: Sys, e: Event)
    requires Linked(s) && Enabled(s, e) && e.Tell?
    ensures StampOk(s, Next(s, e), e.i, Stamp(s, e)) && Onward(s, Next(s, e))
  {
    var o := SendOne(s.nodes[e.i], e.to, e.body);
    PostDoes(s, e.i, o);
    DoesStamp(s, Next(s, e), e.i, o, Clock(s, e.i), Stamp(s, e));
  }

  lemma OtherStamps(s: Sys, e: Event)
    requires Linked(s) && Enabled(s, e) && (e.OtherSend? || e.OtherReceive?)
    ensures StampOk(s, Next(s, e), e.i, Stamp(s, e)) && Onward(s, Next(s, e))
  {
    var s' := Next(s, e);
    assert s'.links == s.links && Clock(s', e.i) == Stamp(s, e);
    assert forall j :: Link(s', e.i, j) == Link(s, e.i, j);
  }

  lemma TakenDoes(s: Sys, from: Uuid, i: Uuid) returns (o: Outcome)
    requires Linked(s) && i in s.nodes && from in s.nodes && from != i && Link(s, from, i) != []
    ensures Does(s, Taken(s, from, i), i, o) && Linked(Taken(s, from, i))
    ensures Stamped(Received(s.nodes[i], Link(s, from, i)[0].logicalTime).logicalTime, o)
    ensures o.node == Taken(s, from, i).nodes[i]
  {
    var p := Link(s, from, i)[0];
    o := Handle(s.nodes[i], p);
    HandleStamped(s.nodes[i], p);
    var s1 := Pop(s, from, i);
    PostDoes(s1, i, o);
    assert forall j | j in s.nodes :: Link(s1, i, j) == Link(s, i, j);
    assert Link(s1, from, i) == Link(s, from, i)[1..];
    assert OthersLose(s, s1, i);
  }

  lemma DeliverStamps(s: Sys, e: Event)
    requires Linked(s) && Enabled(s, e) && e.Deliver?
    ensures StampOk(s, Next(s, e), e.i, Stamp(s, e)) && Onward(s, Next(s, e)) && Ticks(s, Next(s, e), e.i)
  {
    var o := TakenDoes(s, e.from, e.i);
    DoesStamp(s, Next(s, e), e.i, o, Stamp(s, e), Stamp(s, e));
  }

  lemma Associative<T>(a: seq<T>, b: seq<T>, c: seq<T>)
    ensures (a + b) + c == a + (b + c)
  {
  }

  lemma JoinDoes(s: Sys, s1: Sys, s2: Sys, i: Uuid, o1: Outcome, o2: Outcome)
    requires Does(s, s1, i, o1) && Does(s1, s2, i, o2)
    ensures Does(s, s2, i, Outcome(o2.node, o1.out + o2.out))
  {
    forall j | j in s.nodes
      ensures Link(s2, i, j) == Link(s, i, j) + PacketsTo(o1.out + o2.out, j)
    {
      PacketsToConcat(o1.out, o2.out, j);
      Associative(Link(s, i, j), PacketsTo(o1.out, j), PacketsTo(o2.out, j));
    }
  }

  lemma LeftDoes(s: Sys, s': Sys, i: Uuid, o: Outcome, rs: seq<string>)
    requires Does(s, s', i, o)
    ensures Does(s, Left(s', i, rs), i, o)
  {
    GrantedDoes(s, s', Left(s', i, rs), i, o);
  }

  lemma DeliverAbortStamps(s: Sys, e: Event)
    requires Linked(s) && Enabled(s, e) && e.DeliverAbort?
    ensures StampOk(s, Next(s, e), e.i, Stamp(s, e)) && Onward(s, Next(s, e)) && Ticks(s, Next(s, e), e.i)
  {
    var o1 := TakenDoes(s, e.from, e.i);
    var s1 := Taken(s, e.from, e.i);
    var o2 := ReleaseAll(s1.nodes[e.i], e.rs, e.orders);
    ReleaseAllStamped(s1.nodes[e.i], e.rs, e.orders);
    PostDoes(s1, e.i, o2);
    JoinStamped(Stamp(s, e), o1, o2);
    var o := Outcome(o2.node, o1.out + o2.out);
    JoinDoes(s, s1, Post(s1, e.i, o2), e.i, o1, o2);
    LeftDoes(s, Post(s1, e.i, o2), e.i, o, e.rs);
    DoesStamp(s, Next(s, e), e.i, o, Stamp(s, e), Stamp(s, e));
  }

  lemma CallStamps(s: Sys, e: Event)
    requires Linked(s) && Enabled(s, e)
    requires e.CallRequestLock? || e.CallReleaseLock? || e.CallEnter? || e.CheckTimeouts?
    ensures StampOk(s, Next(s, e), e.i, Stamp(s, e)) && Onward(s, Next(s, e))
  {
    match e
    case CallRequestLock(_, _, _) => RequestStamps(s, e);
    case CallReleaseLock(_, _, _) => ReleaseStamps(s, e);
    case CallEnter(_, _, _) => EnterStamps(s, e);
    case CheckTimeouts(_, _, _) => SweepStamps(s, e);
  }

  lemma OwnStamps(s: Sys, e: Event)
    requires Linked(s) && Enabled(s, e)
    requires e.AbortSelf? || e.Tell? || e.OtherSend? || e.OtherReceive?
    ensures StampOk(s, Next(s, e), e.i, Stamp(s, e)) && Onward(s, Next(s, e))
  {
    match e
    case AbortSelf(_, _, _) => AbortSelfStamps(s, e);
    case Tell(_, _, _) => TellStamps(s, e);
    case OtherSend(_) => OtherStamps(s, e);
    case OtherReceive(_, _) => OtherStamps(s, e);
  }

  /** Every event that moves a clock has a stamp. */
  lemma EventStamps(s: Sys, e: Event)
    requires Linked(s) && Enabled(s, e) && !e.TimePasses?
    ensures StampOk(s, Next(s, e), e.i, Stamp(s, e)) && Onward(s, Next(s, e))
  {
    if e.Deliver? {
      DeliverStamps(s, e);
    } else if e.DeliverAbort? {
      DeliverAbortStamps(s, e);
    } else if e.AbortSelf? || e.Tell? || e.OtherSend? || e.OtherReceive? {
      OwnStamps(s, e);
    } else {
      CallStamps(s, e);
    }
  }

  /** A receive is after the send. */
  lemma TakesLater(s: Sys, e: Event, from: Uuid, p: Packet)
    requires Linked(s) && Enabled(s, e) && !e.TimePasses? && Takes(s, e, from, p)
    ensures p.logicalTime < Stamp(s, e) && Ticks(s, Next(s, e), e.i)
  {
    if e.Deliver? {
      DeliverStamps(s, e);
    } else {
      DeliverAbortStamps(s, e);
    }
  }

  // ----- when the clock moves -----

  lemma OrderEmpty(order: seq<Uuid>, ids: set<Uuid>)
    requires Enumerates(order, ids)
    ensures order == [] <==> ids == {}
  {
    if order != [] {
      assert order[0] in ids;
    }
  }

  lemma BroadcastTicks(n: NodeState, body: MessageBody, order: seq<Uuid>, ids: set<Uuid>)
    requires Enumerates(order, ids)
    ensures n.logicalTime <= Broadcast(n, body, order).node.logicalTime
    ensures n.logicalTime < Broadcast(n, body, order).node.logicalTime <==> ids != {}
  {
    OrderEmpty(order, ids);
    BroadcastHarmless(n, body, order);
  }

  lemma {:induction false} ReleaseAllTicks(n: NodeState, rs: seq<string>, orders: seq<seq<Uuid>>, ids: set<Uuid>)
    requires |orders| == |rs| && forall o | o in orders :: Enumerates(o, ids)
    ensures n.logicalTime <= ReleaseAll(n, rs, orders).node.logicalTime
    ensures n.logicalTime < ReleaseAll(n, rs, orders).node.logicalTime <==> rs != [] && ids != {}
  {
    if rs != [] {
      var k := |rs| - 1;
      ReleaseAllTicks(n, rs[..k], orders[..k], ids);
      var before := ReleaseAll(n, rs[..k], orders[..k]).node;
      var n1 := WithoutFirst(before, rs[k], before.id);
      BroadcastTicks(n1.(pendingAcks := n1.pendingAcks - {rs[k]}), ReleaseMsg(rs[k]), orders[k], ids);
    }
  }

  lemma {:induction false} BroadcastReleasesTicks(n: NodeState, rs: seq<string>, orders: seq<seq<Uuid>>, ids: set<Uuid>)
    requires |orders| == |rs| && forall o | o in orders :: Enumerates(o, ids)
    ensures n.logicalTime <= BroadcastReleases(n, rs, orders).node.logicalTime
    ensures n.logicalTime < BroadcastReleases(n, rs, orders).node.logicalTime <==> rs != [] && ids != {}
  {
    if rs != [] {
      var k := |rs| - 1;
      BroadcastReleasesTicks(n, rs[..k], orders[..k], ids);
      BroadcastTicks(BroadcastReleases(n, rs[..k], orders[..k]).node, ReleaseMsg(rs[k]), orders[k], ids);
    }
  }

  lemma ReleaseTicksIff(s: Sys, e: Event)
    requires Enabled(s, e) && (e.CallReleaseLock? || e.AbortSelf?)
    ensures Ticks(s, Next(s, e), e.i) <==> Moves(s, e)
  {
    var n := s.nodes[e.i];
    if e.CallReleaseLock? {
      var n1 := WithoutFirst(n, e.r, n.id);
      BroadcastTicks(n1.(pendingAcks := n1.pendingAcks - {e.r}), ReleaseMsg(e.r), e.order, n.peers.Keys);
    } else {
      ReleaseAllTicks(n, e.rs, e.orders, n.peers.Keys);
      assert e.rs == [] <==> OwnResources(n) == {} by {
        if e.rs != [] {
          assert e.rs[0] in OwnResources(n);
        }
      }
    }
  }

  lemma EnterTicksIff(s: Sys, e: Event)
    requires Enabled(s, e) && e.CallEnter?
    ensures Ticks(s, Next(s, e), e.i) <==> Moves(s, e)
  {
    var n := s.nodes[e.i];
    DropClock(n, e.r, s.now, s.limit);
    BroadcastTicks(DropExpiredHeads(n, e.r, s.now, s.limit), AcquiredMsg(e.r), e.order, n.peers.Keys);
  }

  lemma SweepTicksIff(s: Sys, e: Event)
    requires Enabled(s, e) && e.CheckTimeouts?
    ensures Ticks(s, Next(s, e), e.i) <==> Moves(s, e)
  {
    var n := s.nodes[e.i];
    var swept := SweepQueues(n, e.rs, s.now, s.limit);
    SweepClock(n, e.rs, s.now, s.limit);
    BroadcastReleasesTicks(swept.node, swept.toRelease, e.orders, n.peers.Keys);
  }

  /** An event moves the clock of its node exactly under the guard of Moves. */
  lemma TicksIff(s: Sys, e: Event)
    requires Linked(s) && Enabled(s, e) && !e.TimePasses?
    ensures Ticks(s, Next(s, e), e.i) <==> Moves(s, e)
  {
    if e.CallReleaseLock? || e.AbortSelf? {
      ReleaseTicksIff(s, e);
    } else if e.CallEnter? {
      EnterTicksIff(s, e);
    } else if e.CheckTimeouts? {
      SweepTicksIff(s, e);
    } else if e.CallRequestLock? {
      RequestStamps(s, e);
    } else if e.Deliver? {
      DeliverStamps(s, e);
    } else if e.DeliverAbort? {
      DeliverAbortStamps(s, e);
    }
  }

  // ----- requests on the links -----

  ghost predicate AllAhead(s: Sys) {
    forall x, y, p | x in s.nodes && y in s.nodes && p in Link(s, x, y) :: Ahead(p)
  }

  lemma StampAhead(s: Sys, s': Sys, i: Uuid, stamp: int)
    requires AllAhead(s) && StampOk(s, s', i, stamp) && s'.nodes.Keys == s.nodes.Keys
    ensures AllAhead(s')
  {
    forall x, y, p | x in s'.nodes && y in s'.nodes && p in Link(s', x, y)
      ensures Ahead(p)
    {
      if x == i {
        var k :| 0 <= k < |Link(s', i, y)| && Link(s', i, y)[k] == p;
        assert Sends(s, s', i, y, p) || p in Link(s, i, y);
      }
    }
  }

  lemma StepAhead(s: Sys, e: Event)
    requires Linked(s) && AllAhead(s) && Enabled(s, e)
    ensures AllAhead(Next(s, e))
  {
    if e.TimePasses? {
      assert forall x, y :: Link(Next(s, e), x, y) == Link(s, x, y);
    } else {
      EventStamps(s, e);
      StampAhead(s, Next(s, e), e.i, Stamp(s, e));
    }
  }
}
