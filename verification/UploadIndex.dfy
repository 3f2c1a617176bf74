/** From the connections of an upload to the master's index: a storage node acknowledges whatever it stored
    (backend/dfs/streaming/stream.go), and the master lists every expected node as a replica once all have
    acknowledged (backend/dfs/node/node.go). When what is listed is really there. */
module UploadIndex {
  import opened Basics
  import opened Uuids
  import opened StreamFrames
  import opened Upload
  import opened Placement
  import opened RingOrder
  import opened FileIndex
  import Sorting

  /** The bytes that each storage node of an upload received. */
  type Connections = map<Uuid, seq<byte>>

  /** Node `x` acknowledges with the hash of what it stored. */
  ghost predicate Acknowledges(conns: Connections, sha: seq<byte> -> string, x: Uuid, h: string) {
    x in conns && StoredBytes(conns[x]).Ok? && h == sha(StoredBytes(conns[x]).value)
  }

  // ----- one upload in any history of the index -----

  /** Event `b` begins the upload `id`, which no other event after it does; the acknowledgements of `id` that
      follow come from its nodes. */
  ghost predicate Uploads(es: seq<FileIndex.Event>, hash: string -> Position, b: nat, id: string,
                          conns: Connections, sha: seq<byte> -> string)
  {
    && b < |es| && es[b].Begin? && es[b].id == id && Nodes(es, hash, b) != []
    && Sorting.Sorted(es[b].ring.ring, Below)
    && forall k | b < k < |es| :: Follows(es[k], id, Nodes(es, hash, b), conns, sha)
  }

  ghost predicate Follows(e: FileIndex.Event, id: string, nodes: seq<Uuid>, conns: Connections,
                          sha: seq<byte> -> string)
  {
    && (e.Begin? ==> e.id != id)
    && (e.Ack? && e.id == id ==> e.node in nodes && Acknowledges(conns, sha, e.node, e.hash))
  }

  /** The nodes of the upload that event `b` begins. */
  function Nodes(es: seq<FileIndex.Event>, hash: string -> Position, b: nat): seq<Uuid>
    requires b < |es| && es[b].Begin?
  {
    Placed(es[b].ring, hash, es[b].fileID)
  }

  /** The session still waits for some of its nodes. */
  ghost predicate SameFile(s: StreamSession, e: FileIndex.Event)
    requires e.Begin?
  {
    s.fileID == e.fileID && s.filename == e.filename && s.size == e.size && s.contentType == e.contentType
  }

  ghost predicate Waiting(s: StreamSession, begun: FileIndex.Event, nodes: seq<Uuid>, conns: Connections,
                          sha: seq<byte> -> string)
    requires begun.Begin?
  {
    && SameFile(s, begun) && s.expectedNodes == nodes && |s.receivedAcks| < |nodes|
    && forall x | x in s.receivedAcks :: x in nodes && Acknowledges(conns, sha, x, s.receivedAcks[x])
  }

  lemma StepsNext(es: seq<FileIndex.Event>, hash: string -> Position, k: nat)
    requires k < |es|
    ensures var (index, sessions) := Steps(es[..k], hash);
            Steps(es[..k + 1], hash) == Step(index, sessions, es[k], hash)
  {
    assert es[..k + 1][..k] == es[..k];
  }

  lemma StepWaits(index: Index, sessions: FileIndex.Sessions, e: FileIndex.Event, hash: string -> Position, id: string,
                  begun: FileIndex.Event, nodes: seq<Uuid>, conns: Connections, sha: seq<byte> -> string)
    requires begun.Begin? && (id in sessions ==> Waiting(sessions[id], begun, nodes, conns, sha))
    requires Follows(e, id, nodes, conns, sha)
    ensures var after := Step(index, sessions, e, hash).1;
            id in after ==> id in sessions && Waiting(after[id], begun, nodes, conns, sha)
  {
  }

  lemma {:induction false} WaitsUntilGone(es: seq<FileIndex.Event>, hash: string -> Position, b: nat, id: string,
                                          conns: Connections, sha: seq<byte> -> string, k: nat)
    requires Uploads(es, hash, b, id, conns, sha) && b < k <= |es|
    ensures var sessions := Steps(es[..k], hash).1;
            id in sessions ==> Waiting(sessions[id], es[b], Nodes(es, hash, b), conns, sha)
    decreases k
  {
    var (index, sessions) := Steps(es[..k - 1], hash);
    StepsNext(es, hash, k - 1);
    if k - 1 > b {
      WaitsUntilGone(es, hash, b, id, conns, sha, k - 1);
      StepWaits(index, sessions, es[k - 1], hash, id, es[b], Nodes(es, hash, b), conns, sha);
    }
  }

  /** The acknowledgement that ends the session is the last of all its nodes, and lists them all for
      the file that the upload began with. */
  lemma CompletionLists(es: seq<FileIndex.Event>, hash: string -> Position, b: nat, id: string,
                        conns: Connections, sha: seq<byte> -> string, k: nat)
    requires Uploads(es, hash, b, id, conns, sha) && b < k < |es|
    requires id in Steps(es[..k], hash).1 && id !in Steps(es[..k + 1], hash).1
    ensures es[k].Ack? && es[k].id == id
    ensures var index := Steps(es[..k + 1], hash).0;
            && es[k].hash in index && index[es[k].hash].replicas == Nodes(es, hash, b)
            && index[es[k].hash].meta == FileMeta(es[b].fileID, es[b].filename, es[k].hash, es[b].size, es[b].contentType)
    ensures forall x | x in Nodes(es, hash, b) :: x in conns && StoredBytes(conns[x]).Ok?
  {
    var nodes, sessions := Nodes(es, hash, b), Steps(es[..k], hash).1;
    StepsNext(es, hash, k);
    WaitsUntilGone(es, hash, b, id, conns, sha, k);
    assert Follows(es[k], id, nodes, conns, sha);
    var acks := sessions[id].receivedAcks[es[k].node := es[k].hash];
    PlacedDistinct(es[b].ring, hash, es[b].fileID);
    EveryNodeAcked(nodes, acks);
    forall x | x in nodes
      ensures x in conns && StoredBytes(conns[x]).Ok?
    {
      assert Acknowledges(conns, sha, x, acks[x]);
    }
  }

  lemma EveryNodeAcked(nodes: seq<Uuid>, acks: map<Uuid, string>)
    requires NoRepeats(nodes) && |acks| >= |nodes| && forall x | x in acks :: x in nodes
    ensures forall x | x in nodes :: x in acks
  {
    DistinctCount(nodes, Members(nodes));
    if x :| x in nodes && x !in acks {
      SubsetSize(acks.Keys, Members(nodes) - {x});
    }
  }

  // ----- what the listed nodes hold -----

  /** The connection carried the header of the upload and some of the file. */
  ghost predicate CarriesSome(c: seq<byte>, stream: SessionID, file: seq<byte>) {
    exists n :: Carries(c, stream, file, n)
  }

  lemma StoredIff(c: seq<byte>, stream: SessionID, file: seq<byte>)
    requires CarriesSome(c, stream, file) && |stream| <= 36 && !EndsInNull(stream)
    ensures StoredBytes(c) == Ok(file) <==> HEADER_SIZE + |file| <= |c|
  {
    var n :| Carries(c, stream, file, n);
    HeaderRoundTrip(UploadHeader(stream, |file|), file[..n]);
    CutConnectionStored(c);
    assert c[HEADER_SIZE..] == file[..n];
    if n == |file| {
      assert file[..n] == file && file + [] == file && c + [] == c;
      StoredIsFile(c, stream, file, []);
    }
  }

  /** Every node listed for a completed upload holds the whole file exactly when no connection was cut: on each
      the header and all bytes of the file arrived. Nothing in the acknowledgements tells. */
  lemma ListedHoldFileIff(es: seq<FileIndex.Event>, hash: string -> Position, b: nat, id: string,
                          conns: Connections, sha: seq<byte> -> string, k: nat, stream: SessionID, file: seq<byte>)
    requires Uploads(es, hash, b, id, conns, sha) && b < k < |es|
    requires id in Steps(es[..k], hash).1 && id !in Steps(es[..k + 1], hash).1
    requires |stream| <= 36 && !EndsInNull(stream)
    requires forall x | x in Nodes(es, hash, b) && x in conns :: CarriesSome(conns[x], stream, file)
    ensures es[k].Ack? && es[k].hash in Steps(es[..k + 1], hash).0
    ensures forall x | x in Steps(es[..k + 1], hash).0[es[k].hash].replicas :: x in conns
    ensures forall x | x in Nodes(es, hash, b) :: x in conns
    ensures (forall x | x in Steps(es[..k + 1], hash).0[es[k].hash].replicas :: StoredBytes(conns[x]) == Ok(file))
            <==> forall x | x in Nodes(es, hash, b) :: HEADER_SIZE + |file| <= |conns[x]|
  {
    CompletionLists(es, hash, b, id, conns, sha, k);
    forall x | x in Nodes(es, hash, b)
      ensures StoredBytes(conns[x]) == Ok(file) <==> HEADER_SIZE + |file| <= |conns[x]|
    {
      StoredIff(conns[x], stream, file);
    }
  }

  // ----- a node listed without the file -----

  /** A ring of one node with one position. */
  function OneNode(x: Uuid): RingState {
    RingState([0], map[0 := x], map[x := NodeInfo(x, "", 0, 0)], 1)
  }

  function Zero(): string -> Position {
    text => 0
  }

  lemma OneIsPlaced(x: Uuid, fileID: Uuid)
    ensures Placed(OneNode(x), Zero(), fileID) == [x]
  {
    var s := OneNode(x);
    assert s.ring[1..] == [];
    assert Clockwise(s.ring, 0) == [0];
    assert [0][..0] == [];
    assert LiveOwners(s, [0]) == [x];
  }

  /** The events of an upload of one byte to one node whose connection was cut after the header. */
  function ShortUpload(x: Uuid, fileID: Uuid, sha: seq<byte> -> string): seq<FileIndex.Event> {
    [Begin("u", fileID, "f", 1, "t", OneNode(x)), Ack("u", x, sha([]))]
  }

  /** The node is listed, under the hash of nothing, and holds nothing of the file. */
  lemma ListedWithoutFile(x: Uuid, fileID: Uuid, sha: seq<byte> -> string, stream: SessionID, file: seq<byte>)
    requires |stream| <= 36 && !EndsInNull(stream) && |file| == 1
    ensures var es, conns := ShortUpload(x, fileID, sha), map[x := HeaderBytes(UploadHeader(stream, 1))];
            && Uploads(es, Zero(), 0, "u", conns, sha) && CarriesSome(conns[x], stream, file)
            && sha([]) in Steps(es, Zero()).0 && Steps(es, Zero()).0[sha([])].replicas == [x]
            && StoredBytes(conns[x]) == Ok([])
  {
    var es, c := ShortUpload(x, fileID, sha), HeaderBytes(UploadHeader(stream, 1));
    OneIsPlaced(x, fileID);
    assert c + [] == c && file[..0] == [] && Carries(c, stream, file, 0);
    HeaderRoundTrip(UploadHeader(stream, 1), []);
    assert StoredBytes(c) == Ok([]);
    assert es[..0] == [] && es[..2] == es;
    StepsNext(es, Zero(), 0);
    StepsNext(es, Zero(), 1);
  }
}
