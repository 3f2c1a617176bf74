/** What holds between two nodes `a` and `b` and the two links between them, and how each kind of
    step keeps it. */
module LockPairs {
  import opened Uuids
  import opened Lamport
  import opened LockState
  import opened LockSystem
  import Sorting

  ghost predicate InOrder(q: seq<LockRequest>) {
    Sorting.Sorted(q, CompareLockRequests)
  }

  ghost predicate OneOf(q: seq<LockRequest>, id: Uuid) {
    |Of(q, id)| <= 1
  }

  /** On one resource: the queue is sorted, holds one own entry at most and requests of this resource
      made in the past, and only peers are counted as having acked. */
  ghost predicate NodeOkAt(n: NodeState, r: string) {
    && InOrder(Queue(n, r))
    && OneOf(Queue(n, r), n.id)
    && (forall p | p in Queue(n, r) :: p.resourceID == r && p.logicalTime <= n.logicalTime)
    && Acks(n, r) <= n.peers.Keys
  }

  ghost predicate NodeOk(n: NodeState) {
    forall r :: NodeOkAt(n, r)
  }

  /** Requests on a link are the sender's, and travel with a later time than their own. */
  ghost predicate LinkOk(a: NodeState, ab: seq<Packet>) {
    forall k | 0 <= k < |ab| ::
      && ab[k].from == a.id
      && (ab[k].body.RequestMsg? ==> ab[k].body.request.nodeID == a.id
                                     && ab[k].body.request.logicalTime < ab[k].logicalTime)
  }

  /** The queued request `p` of `a` is on its way to `b` with no release behind it, or it was handled,
      no release is on its way, and `b` still has it unless it expired. */
  ghost predicate Arrives(p: LockRequest, b: NodeState, ab: seq<Packet>, r: string, now: int, limit: Limit) {
    || (exists k :: Carries(ab, k, RequestMsg(p)) && forall m | k < m :: !Carries(ab, m, ReleaseMsg(r)))
    || (!InFlight(ab, ReleaseMsg(r)) && (p in Queue(b, r) || Expired(p, now, limit)))
  }

  ghost predicate OnlyRequest(p: LockRequest, ab: seq<Packet>, r: string) {
    forall k | 0 <= k < |ab| && ab[k].body.RequestMsg? && ab[k].body.request.resourceID == r :: ab[k].body.request == p
  }

  ghost predicate Acked(a: NodeState, b: NodeState, ba: seq<Packet>, r: string) {
    b.id in Acks(a, r) || InFlight(ba, AckMsg(r))
  }

  /** A queued request `q` of `b` that is before the queued request `p` of `a` is not still behind
      the ack of `b` to `p`. */
  ghost predicate NothingBehindAck(a: NodeState, b: NodeState, ba: seq<Packet>, r: string) {
    forall p, q, k | Own(a, r, p) && Own(b, r, q) && CompareLockRequests(q, p) && Carries(ba, k, RequestMsg(q)) ::
      b.id !in Acks(a, r) && forall m | m < k :: !Carries(ba, m, AckMsg(r))
  }

  ghost predicate PairOk(a: NodeState, b: NodeState, ab: seq<Packet>, ba: seq<Packet>, now: int, limit: Limit) {
    && LinkOk(a, ab)
    && (forall r, p | Own(a, r, p) :: Arrives(p, b, ab, r, now, limit))
    && (forall r, p | Own(a, r, p) :: OnlyRequest(p, ab, r))
    && (forall r, p | Own(a, r, p) && Acked(a, b, ba, r) :: p.logicalTime <= b.logicalTime)
    && (forall r :: NothingBehindAck(a, b, ba, r))
  }

  // ----- steps that only lose entries -----

  /** A step of a node on its own that loses expired entries, and its own when it releases. */
  ghost predicate ShrinksAt(n: NodeState, n': NodeState, r: string, released: bool, now: int, limit: Limit) {
    && (forall p | p in Queue(n', r) :: p in Queue(n, r))
    && (forall p | p in Queue(n, r) && p !in Queue(n', r) :: (released && p.nodeID == n.id) || Expired(p, now, limit))
    && Acks(n', r) <= Acks(n, r)
    && (NoOwn(n', r) || Acks(n', r) == Acks(n, r))
  }

  /** `rs` are the resources that `n` releases in the step. */
  ghost predicate Shrinks(n: NodeState, n': NodeState, rs: seq<string>, now: int, limit: Limit) {
    && n'.id == n.id && n'.peers == n.peers && n'.logicalTime >= n.logicalTime
    && forall r :: ShrinksAt(n, n', r, r in rs, now, limit)
  }

  /** Messages that change no queue, and releases of resources on which `n` has no entry. */
  ghost predicate Harmless(n: NodeState, ext: seq<Packet>) {
    forall k | 0 <= k < |ext| ::
      && ext[k].from == n.id
      && (Neutral(ext[k].body)
          || (ext[k].body.ReleaseMsg? && NoOwn(n, ext[k].body.resourceID)))
  }

  lemma SenderShrinks(a: NodeState, a': NodeState, b: NodeState, ab: seq<Packet>, ext: seq<Packet>,
                      ba: seq<Packet>, rs: seq<string>, now: int, limit: Limit)
    requires PairOk(a, b, ab, ba, now, limit) && Shrinks(a, a', rs, now, limit) && Harmless(a', ext)
    ensures PairOk(a', b, ab + ext, ba, now, limit)
  {
    forall r
      ensures Acked(a', b, ba, r) ==> Acked(a, b, ba, r)
      ensures forall p | Own(a', r, p) :: Own(a, r, p)
    {
      assert ShrinksAt(a, a', r, r in rs, now, limit);
    }
    forall r, p | Own(a', r, p)
      ensures Arrives(p, b, ab + ext, r, now, limit) && OnlyRequest(p, ab + ext, r)
    {
      assert ShrinksAt(a, a', r, r in rs, now, limit);
      assert Own(a, r, p) && Arrives(p, b, ab, r, now, limit) && OnlyRequest(p, ab, r);
      assert forall k | 0 <= k < |ext| :: ext[k].body != ReleaseMsg(r);
      if k :| Carries(ab, k, RequestMsg(p)) && forall m | k < m :: !Carries(ab, m, ReleaseMsg(r)) {
        assert Carries(ab + ext, k, RequestMsg(p));
        assert forall m | k < m :: Carries(ab + ext, m, ReleaseMsg(r)) ==> Carries(ab, m, ReleaseMsg(r));
      } else {
        assert forall m :: Carries(ab + ext, m, ReleaseMsg(r)) ==> Carries(ab, m, ReleaseMsg(r));
      }
    }
    forall r
      ensures NothingBehindAck(a', b, ba, r)
    {
      assert NothingBehindAck(a, b, ba, r) && ShrinksAt(a, a', r, r in rs, now, limit);
    }
  }

  lemma ReceiverShrinks(a: NodeState, b: NodeState, b': NodeState, ab: seq<Packet>, ba: seq<Packet>,
                        ext: seq<Packet>, rs: seq<string>, now: int, limit: Limit)
    requires a.id != b.id
    requires PairOk(a, b, ab, ba, now, limit) && Shrinks(b, b', rs, now, limit) && Harmless(b', ext)
    ensures PairOk(a, b', ab, ba + ext, now, limit)
  {
    assert forall r, m :: Carries(ba + ext, m, AckMsg(r)) ==> Carries(ba, m, AckMsg(r));
    forall r
      ensures NothingBehindAck(a, b', ba + ext, r)
    {
      assert NothingBehindAck(a, b, ba, r) && ShrinksAt(b, b', r, r in rs, now, limit);
      assert forall q, k :: Carries(ba + ext, k, RequestMsg(q)) ==> Carries(ba, k, RequestMsg(q));
    }
    forall r, p | Own(a, r, p)
      ensures Arrives(p, b', ab, r, now, limit)
    {
      assert Arrives(p, b, ab, r, now, limit) && ShrinksAt(b, b', r, r in rs, now, limit);
    }
  }

  // ----- steps with third nodes -----

  /** A step of `n` that `x` cannot see: their entries and the ack of `x` stay as they are. */
  ghost predicate SameFor(n: NodeState, n': NodeState, x: Uuid) {
    && n'.id == n.id && n'.logicalTime >= n.logicalTime
    && (forall r, p: LockRequest | p.nodeID == n.id || p.nodeID == x :: p in Queue(n', r) <==> p in Queue(n, r))
    && (forall r :: x in Acks(n', r) <==> x in Acks(n, r))
  }

  lemma SenderSame(a: NodeState, a': NodeState, b: NodeState, ab: seq<Packet>, ba: seq<Packet>, now: int, limit: Limit)
    requires PairOk(a, b, ab, ba, now, limit) && SameFor(a, a', b.id)
    ensures PairOk(a', b, ab, ba, now, limit)
  {
    assert forall r, p :: Own(a', r, p) <==> Own(a, r, p);
    forall r
      ensures NothingBehindAck(a', b, ba, r)
    {
      assert NothingBehindAck(a, b, ba, r);
    }
  }

  lemma ReceiverSame(a: NodeState, b: NodeState, b': NodeState, ab: seq<Packet>, ba: seq<Packet>, now: int, limit: Limit)
    requires PairOk(a, b, ab, ba, now, limit) && SameFor(b, b', a.id)
    ensures PairOk(a, b', ab, ba, now, limit)
  {
    assert forall r, p :: Own(b', r, p) <==> Own(b, r, p);
    forall r, p | Own(a, r, p)
      ensures Arrives(p, b', ab, r, now, limit)
    {
      assert Arrives(p, b, ab, r, now, limit);
    }
    forall r
      ensures NothingBehindAck(a, b', ba, r)
    {
      assert NothingBehindAck(a, b, ba, r);
    }
  }

  lemma TimeKeepsPair(a: NodeState, b: NodeState, ab: seq<Packet>, ba: seq<Packet>, now: int, later: int, limit: Limit)
    requires PairOk(a, b, ab, ba, now, limit) && now <= later
    ensures PairOk(a, b, ab, ba, later, limit)
  {
    forall r, p | Own(a, r, p)
      ensures Arrives(p, b, ab, r, later, limit)
    {
      assert Arrives(p, b, ab, r, now, limit);
    }
  }

  // ----- a new request -----

  /** `n'` is `n` after RequestLock on `r` with the request `req`. */
  ghost predicate Requested(n: NodeState, n': NodeState, r: string, req: LockRequest) {
    && n'.id == n.id && n'.logicalTime >= n.logicalTime
    && req.resourceID == r && req.nodeID == n.id && req.logicalTime > n.logicalTime
    && (forall r', p :: p in Queue(n', r') <==> p in Queue(n, r') || (r' == r && p == req))
    && (forall r' :: Acks(n', r') == if r' == r then {} else Acks(n, r'))
  }

  lemma SenderRequests(a: NodeState, a': NodeState, b: NodeState, ab: seq<Packet>, pk: Packet, ba: seq<Packet>,
                       r: string, req: LockRequest, now: int, limit: Limit)
    requires PairOk(a, b, ab, ba, now, limit) && Requested(a, a', r, req) && NoOwn(a, r)
    requires pk.body == RequestMsg(req) && pk.from == a.id && pk.logicalTime > req.logicalTime
    requires NothingPending(ab, ba, r)
    ensures PairOk(a', b, ab + [pk], ba, now, limit)
  {
    var ab' := ab + [pk];
    forall r', p | Own(a', r', p)
      ensures Arrives(p, b, ab', r', now, limit)
    {
      if r' == r && p == req {
        assert Carries(ab', |ab|, RequestMsg(p));
      } else {
        assert Own(a, r', p) && Arrives(p, b, ab, r', now, limit);
        if k :| Carries(ab, k, RequestMsg(p)) && forall m | k < m :: !Carries(ab, m, ReleaseMsg(r')) {
          assert Carries(ab', k, RequestMsg(p));
          assert forall m | k < m :: Carries(ab', m, ReleaseMsg(r')) ==> Carries(ab, m, ReleaseMsg(r'));
        } else {
          assert forall m :: Carries(ab', m, ReleaseMsg(r')) ==> Carries(ab, m, ReleaseMsg(r'));
        }
      }
    }
    forall r', p | Own(a', r', p)
      ensures OnlyRequest(p, ab', r')
    {
      if r' == r {
        forall k | 0 <= k < |ab| && ab[k].body.RequestMsg?
          ensures ab[k].body.request.resourceID != r
        {
          assert Carries(ab, k, RequestMsg(ab[k].body.request));
          assert InFlight(ab, RequestMsg(ab[k].body.request));
        }
      } else {
        assert Own(a, r', p) && OnlyRequest(p, ab, r');
      }
    }
    forall r', p | Own(a', r', p) && Acked(a', b, ba, r')
      ensures p.logicalTime <= b.logicalTime
    {
      assert r' != r && Own(a, r', p) && Acked(a, b, ba, r');
    }
    forall r'
      ensures NothingBehindAck(a', b, ba, r')
    {
      assert NothingBehindAck(a, b, ba, r');
      if r' == r {
        assert b.id !in Acks(a', r) && forall m :: !Carries(ba, m, AckMsg(r));
      }
    }
  }

  lemma ReceiverRequests(a: NodeState, b: NodeState, b': NodeState, ab: seq<Packet>, ba: seq<Packet>, pk: Packet,
                         r: string, req: LockRequest, now: int, limit: Limit)
    requires a.id != b.id
    requires PairOk(a, b, ab, ba, now, limit) && Requested(b, b', r, req)
    requires pk.body == RequestMsg(req)
    ensures PairOk(a, b', ab, ba + [pk], now, limit)
  {
    var ba' := ba + [pk];
    assert forall r', m :: Carries(ba', m, AckMsg(r')) ==> Carries(ba, m, AckMsg(r'));
    forall r', p | Own(a, r', p)
      ensures Arrives(p, b', ab, r', now, limit)
    {
      assert Arrives(p, b, ab, r', now, limit);
    }
    forall r', p, q, k | Own(a, r', p) && Own(b', r', q) && CompareLockRequests(q, p) && Carries(ba', k, RequestMsg(q))
      ensures b'.id !in Acks(a, r') && forall m | m < k :: !Carries(ba', m, AckMsg(r'))
    {
      assert NothingBehindAck(a, b, ba, r');
      if Own(b, r', q) && k < |ba| {
        assert Carries(ba, k, RequestMsg(q));
      } else {
        assert q == req;
        assert !Acked(a, b, ba, r');
      }
    }
  }

  // ----- delivery: `a` handles the first message of the link from `b` -----

  lemma Shifted(link: seq<Packet>)
    requires link != []
    ensures forall k, body :: Carries(link[1..], k, body) <==> 0 <= k && Carries(link, k + 1, body)
    ensures forall body :: InFlight(link[1..], body) ==> InFlight(link, body)
    ensures forall body :: InFlight(link, body) && link[0].body != body ==> InFlight(link[1..], body)
  {
    forall body | InFlight(link, body) && link[0].body != body
      ensures InFlight(link[1..], body)
    {
      var k :| Carries(link, k, body);
      assert Carries(link[1..], k - 1, body);
    }
    forall body | InFlight(link[1..], body)
      ensures InFlight(link, body)
    {
      var k :| Carries(link[1..], k, body);
      assert Carries(link, k + 1, body);
    }
  }

  /** The sender's promise about `p` after the first message, which is not `p` itself, is handled. */
  lemma ArrivesShifted(p: LockRequest, a: NodeState, a': NodeState, ba: seq<Packet>, r: string, now: int, limit: Limit)
    requires ba != [] && Arrives(p, a, ba, r, now, limit)
    requires ba[0].body == RequestMsg(p) ==> p in Queue(a', r)
    requires ba[0].body != ReleaseMsg(r) && p in Queue(a, r) ==> p in Queue(a', r)
    ensures Arrives(p, a', ba[1..], r, now, limit)
  {
    Shifted(ba);
    if k :| Carries(ba, k, RequestMsg(p)) && forall m | k < m :: !Carries(ba, m, ReleaseMsg(r)) {
      if k == 0 {
        assert forall m :: !Carries(ba[1..], m, ReleaseMsg(r));
      } else {
        assert Carries(ba[1..], k - 1, RequestMsg(p));
        assert forall m | k - 1 < m :: !Carries(ba[1..], m, ReleaseMsg(r));
      }
    } else {
      assert ba[0].body == ReleaseMsg(r) ==> Carries(ba, 0, ReleaseMsg(r));
    }
  }

  /** Popping a message other than an ack keeps the receiver's side. */
  lemma PopKeepsReceiver(a: NodeState, a': NodeState, b: NodeState, ab: seq<Packet>, ba: seq<Packet>, now: int,
                         limit: Limit)
    requires PairOk(a, b, ab, ba, now, limit) && ba != [] && !ba[0].body.AckMsg?
    requires SameOwn(a, a')
    ensures PairOk(a', b, ab, ba[1..], now, limit)
  {
    Shifted(ba);
    assert forall r, p :: Own(a', r, p) <==> Own(a, r, p);
    forall r
      ensures NothingBehindAck(a', b, ba[1..], r)
    {
      assert NothingBehindAck(a, b, ba, r);
      forall p, q, k | Own(a', r, p) && Own(b, r, q) && CompareLockRequests(q, p) && Carries(ba[1..], k, RequestMsg(q))
        ensures b.id !in Acks(a', r) && forall m | m < k :: !Carries(ba[1..], m, AckMsg(r))
      {
        assert Carries(ba, k + 1, RequestMsg(q));
      }
    }
  }

  /** `n'` has the entries of its own and the acks that `n` has. */
  ghost predicate SameOwn(n: NodeState, n': NodeState) {
    && n'.id == n.id && n'.logicalTime >= n.logicalTime
    && (forall r, p: LockRequest | p.nodeID == n.id :: p in Queue(n', r) <==> p in Queue(n, r))
    && (forall r :: Acks(n', r) == Acks(n, r))
  }

  ghost predicate Enqueued(n: NodeState, n': NodeState, req: LockRequest) {
    && n'.id == n.id && n'.logicalTime >= n.logicalTime
    && (forall r, p :: p in Queue(n', r) <==> p in Queue(n, r) || (r == req.resourceID && p == req))
    && (forall r :: Acks(n', r) == Acks(n, r))
  }

  /** An ack on the way out changes nothing for the sender's own requests. */
  lemma SendAck(a: NodeState, b: NodeState, ab: seq<Packet>, ack: Packet, ba: seq<Packet>, now: int, limit: Limit)
    requires PairOk(a, b, ab, ba, now, limit) && ack.body.AckMsg? && ack.from == a.id
    ensures PairOk(a, b, ab + [ack], ba, now, limit)
  {
    var ab' := ab + [ack];
    forall r, p | Own(a, r, p)
      ensures Arrives(p, b, ab', r, now, limit) && OnlyRequest(p, ab', r)
    {
      assert Arrives(p, b, ab, r, now, limit) && OnlyRequest(p, ab, r);
      assert forall m :: Carries(ab', m, ReleaseMsg(r)) <==> Carries(ab, m, ReleaseMsg(r));
      if k :| Carries(ab, k, RequestMsg(p)) && forall m | k < m :: !Carries(ab, m, ReleaseMsg(r)) {
        assert Carries(ab', k, RequestMsg(p));
      }
    }
  }

  lemma DeliverRequest(a: NodeState, a': NodeState, b: NodeState, ab: seq<Packet>, ack: Packet, ba: seq<Packet>,
                       req: LockRequest, now: int, limit: Limit)
    requires PairOk(a, b, ab, ba, now, limit) && PairOk(b, a, ba, ab, now, limit) && a.id != b.id
    requires ba != [] && ba[0].body == RequestMsg(req) && NodeOk(b)
    requires Enqueued(a, a', req) && a'.logicalTime > ba[0].logicalTime
    requires ack.body == AckMsg(req.resourceID) && ack.from == a.id
    ensures PairOk(a', b, ab + [ack], ba[1..], now, limit)
    ensures PairOk(b, a', ba[1..], ab + [ack], now, limit)
  {
    var ab' := ab + [ack];
    assert req.nodeID == b.id;
    PopKeepsReceiver(a, a', b, ab, ba, now, limit);
    SendAck(a', b, ab, ack, ba[1..], now, limit);
    Shifted(ba);
    forall r, p | Own(b, r, p)
      ensures Arrives(p, a', ba[1..], r, now, limit) && OnlyRequest(p, ba[1..], r)
    {
      assert Arrives(p, a, ba, r, now, limit) && OnlyRequest(p, ba, r) && NodeOkAt(b, r);
      ArrivesShifted(p, a, a', ba, r, now, limit);
    }
    forall r, p | Own(b, r, p) && Acked(b, a', ab', r)
      ensures p.logicalTime <= a'.logicalTime
    {
      if r == req.resourceID {
        assert OnlyRequest(p, ba, r);
      } else {
        assert forall m :: Carries(ab', m, AckMsg(r)) ==> Carries(ab, m, AckMsg(r));
        assert Acked(b, a, ab, r);
      }
    }
    forall r
      ensures NothingBehindAck(b, a', ab', r)
    {
      assert NothingBehindAck(b, a, ab, r);
      forall p, q, k | Own(b, r, p) && Own(a', r, q) && CompareLockRequests(q, p) && Carries(ab', k, RequestMsg(q))
        ensures a'.id !in Acks(b, r) && forall m | m < k :: !Carries(ab', m, AckMsg(r))
      {
        assert Own(a, r, q) && Carries(ab, k, RequestMsg(q));
        assert forall m | m < k :: Carries(ab', m, AckMsg(r)) ==> Carries(ab, m, AckMsg(r));
      }
    }
  }

  lemma DeliverAck(a: NodeState, a': NodeState, b: NodeState, ab: seq<Packet>, ba: seq<Packet>,
                   r: string, now: int, limit: Limit)
    requires PairOk(a, b, ab, ba, now, limit) && PairOk(b, a, ba, ab, now, limit) && a.id != b.id
    requires ba != [] && ba[0].body == AckMsg(r)
    requires a'.id == a.id && a'.logicalTime >= a.logicalTime && a'.lockQueue == a.lockQueue
    requires forall r' :: Acks(a', r') == if r' == r then Acks(a, r) + {b.id} else Acks(a, r')
    ensures PairOk(a', b, ab, ba[1..], now, limit)
    ensures PairOk(b, a', ba[1..], ab, now, limit)
  {
    Shifted(ba);
    assert Carries(ba, 0, AckMsg(r));
    assert forall r', p :: Own(a', r', p) <==> Own(a, r', p);
    forall r'
      ensures NothingBehindAck(a', b, ba[1..], r')
    {
      assert NothingBehindAck(a, b, ba, r');
      forall p, q, k | Own(a', r', p) && Own(b, r', q) && CompareLockRequests(q, p) && Carries(ba[1..], k, RequestMsg(q))
        ensures b.id !in Acks(a', r') && forall m | m < k :: !Carries(ba[1..], m, AckMsg(r'))
      {
        assert Carries(ba, k + 1, RequestMsg(q));
      }
    }
    forall r', p | Own(a', r', p) && Acked(a', b, ba[1..], r')
      ensures p.logicalTime <= b.logicalTime
    {
      assert Acked(a, b, ba, r');
    }
    PopForSender(a, a', b, ba, ab, now, limit);
  }

  /** Handling a message that is no request of `b` and no release keeps what `b` is promised. */
  lemma PopForSender(a: NodeState, a': NodeState, b: NodeState, ba: seq<Packet>, ab: seq<Packet>, now: int, limit: Limit)
    requires PairOk(b, a, ba, ab, now, limit) && ba != [] && !ba[0].body.RequestMsg?
    requires a'.id == a.id && a'.logicalTime >= a.logicalTime
    requires forall r, p :: Own(a', r, p) ==> Own(a, r, p)
    requires forall r, p | Own(b, r, p) && p in Queue(a, r) && ba[0].body != ReleaseMsg(r) :: p in Queue(a', r)
    ensures PairOk(b, a', ba[1..], ab, now, limit)
  {
    Shifted(ba);
    forall r, p | Own(b, r, p)
      ensures Arrives(p, a', ba[1..], r, now, limit) && OnlyRequest(p, ba[1..], r)
    {
      assert Arrives(p, a, ba, r, now, limit) && OnlyRequest(p, ba, r);
      ArrivesShifted(p, a, a', ba, r, now, limit);
    }
    forall r
      ensures NothingBehindAck(b, a', ab, r)
    {
      assert NothingBehindAck(b, a, ab, r);
    }
    assert forall r :: Acked(b, a', ab, r) ==> Acked(b, a, ab, r);
  }

  /** A release of `b`, or a message that changes no queue. */
  lemma DeliverOther(a: NodeState, a': NodeState, b: NodeState, ab: seq<Packet>, ba: seq<Packet>, now: int, limit: Limit)
    requires PairOk(a, b, ab, ba, now, limit) && PairOk(b, a, ba, ab, now, limit) && a.id != b.id
    requires ba != [] && (ba[0].body.ReleaseMsg? || Neutral(ba[0].body))
    requires SameOwn(a, a')
    requires forall r, p | p in Queue(a, r) && ba[0].body != ReleaseMsg(r) :: p in Queue(a', r)
    ensures PairOk(a', b, ab, ba[1..], now, limit)
    ensures PairOk(b, a', ba[1..], ab, now, limit)
  {
    PopKeepsReceiver(a, a', b, ab, ba, now, limit);
    PopForSender(a, a', b, ba, ab, now, limit);
  }
}
