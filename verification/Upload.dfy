/** The chunked upload, from the slices of the browser to the bytes on each storage connection, as
    functions (frontend/src/hooks/useFileUpload.ts, backend/internal/handlers/file_handler.go,
    backend/dfs/client/master_client.go). The classes of UploadHandlers prove their methods against them. */
module Upload {
  import opened Basics
  import opened Uuids
  import opened StreamFrames

  const CHUNK_SIZE := 50 * 1024 * 1024
  const DEFAULT_CHUNK_SIZE: Int32 := 4 * 1024 * 1024

  // ----- slices -----

  function TotalChunks(size: nat): (n: nat)
    ensures (n - 1) * CHUNK_SIZE < size <= n * CHUNK_SIZE || (size == 0 == n)
  {
    (size + CHUNK_SIZE - 1) / CHUNK_SIZE
  }

  function Slice(file: seq<byte>, k: nat): seq<byte> {
    var start := Min(k * CHUNK_SIZE, |file|);
    file[start..Min(start + CHUNK_SIZE, |file|)]
  }

  /** The first `k` slices are the start of the file, and all of them are the file. */
  lemma SliceExtends(file: seq<byte>, k: nat)
    ensures file[..Min(k * CHUNK_SIZE, |file|)] + Slice(file, k) == file[..Min((k + 1) * CHUNK_SIZE, |file|)]
    ensures Min(TotalChunks(|file|) * CHUNK_SIZE, |file|) == |file|
  {
  }

  // ----- one stream session -----

  /** What a write to a connection did: the bytes that went out, and whether it reported an error. */
  datatype WriteOutcome = Wrote(n: nat) | WriteFailed(n: nat)

  function Sent(data: seq<byte>, w: WriteOutcome): seq<byte> {
    data[..Min(w.n, |data|)]
  }

  predicate Complete(data: seq<byte>, w: WriteOutcome) {
    w.Wrote? && w.n == |data|
  }

  /** `carried` is what each connection has carried so far. */
  datatype Stream = Stream(size: int, nodeIDs: seq<Uuid>, carried: seq<seq<byte>>, bytesWritten: int)

  /** The writes to the first `k` connections; the first one that is not complete is the last. */
  function WriteTo(carried: seq<seq<byte>>, data: seq<byte>, ws: seq<WriteOutcome>, k: nat): (r: (seq<seq<byte>>, bool))
    requires k <= |carried| <= |ws|
    ensures |r.0| == |carried|
  {
    if k == 0 then (carried, true)
    else
      var (before, ok) := WriteTo(carried, data, ws, k - 1);
      if ok then (before[k - 1 := before[k - 1] + Sent(data, ws[k - 1])], Complete(data, ws[k - 1]))
      else (before, false)
  }

  function WriteChunk(s: Stream, data: seq<byte>, ws: seq<WriteOutcome>): (Stream, bool)
    requires |s.carried| <= |ws|
  {
    var (carried, ok) := WriteTo(s.carried, data, ws, |s.carried|);
    (s.(carried := carried, bytesWritten := s.bytesWritten + if ok then |data| else 0), ok)
  }

  /** A write that succeeds adds the chunk to every connection. */
  lemma {:induction false} WriteToEach(carried: seq<seq<byte>>, data: seq<byte>, ws: seq<WriteOutcome>, k: nat)
    requires k <= |carried| <= |ws| && WriteTo(carried, data, ws, k).1
    ensures var after := WriteTo(carried, data, ws, k).0;
            forall i | 0 <= i < |carried| :: after[i] == if i < k then carried[i] + data else carried[i]
  {
    if k > 0 {
      WriteToEach(carried, data, ws, k - 1);
    }
  }

  datatype FinalizeResult = Uploaded(hash: seq<byte>, nodeIDs: seq<Uuid>) | FinalizeFailed

  datatype Replies = Replies(hash: seq<byte>, nodeIDs: seq<Uuid>, failed: bool)

  predicate StoredReply(reply: seq<byte>) {
    |reply| >= RESPONSE_SIZE && reply[0] == 1
  }

  /** What Finalize has gathered from the first `k` connections; each delivers `replies[i]` and ends. */
  function Gather(nodeIDs: seq<Uuid>, replies: seq<seq<byte>>, k: nat): Replies
    requires k <= |replies| == |nodeIDs|
  {
    if k == 0 then Replies([], [], false)
    else
      var g := Gather(nodeIDs, replies, k - 1);
      if !StoredReply(replies[k - 1]) then g.(failed := true)
      else g.(hash := if g.hash == [] then TrimNull(replies[k - 1][1..65]) else g.hash,
              nodeIDs := g.nodeIDs + [nodeIDs[k - 1]])
  }

  function Finalize(s: Stream, replies: seq<seq<byte>>): FinalizeResult
    requires |replies| == |s.nodeIDs|
  {
    if s.bytesWritten != s.size then FinalizeFailed
    else
      var g := Gather(s.nodeIDs, replies, |replies|);
      if g.failed then FinalizeFailed else Uploaded(g.hash, g.nodeIDs)
  }

  lemma {:induction false} GatherAll(nodeIDs: seq<Uuid>, replies: seq<seq<byte>>, k: nat)
    requires k <= |replies| == |nodeIDs|
    ensures var g := Gather(nodeIDs, replies, k);
            && (g.failed <==> exists i :: 0 <= i < k && !StoredReply(replies[i]))
            && (!g.failed ==> g.nodeIDs == nodeIDs[..k])
  {
    if k > 0 {
      GatherAll(nodeIDs, replies, k - 1);
    }
  }

  /** An upload is reported done exactly when the announced number of bytes was written and every storage
      node said it stored the file; then every node is listed. */
  lemma FinalizeMeans(s: Stream, replies: seq<seq<byte>>)
    requires |replies| == |s.nodeIDs|
    ensures Finalize(s, replies).Uploaded?
            <==> s.bytesWritten == s.size && forall i | 0 <= i < |replies| :: StoredReply(replies[i])
    ensures Finalize(s, replies).Uploaded? ==> Finalize(s, replies).nodeIDs == s.nodeIDs
  {
    GatherAll(s.nodeIDs, replies, |replies|);
  }

  // ----- the handler -----

  /** Session ids are Go strings, that is, bytes. */
  type SessionID = seq<byte>

  datatype Session = Session(user: Uuid, totalChunks: int, nextChunk: int, stream: Stream)

  type Sessions = map<SessionID, Session>

  datatype Status = Success | BadRequest | Forbidden | NotFound | ServerError

  datatype ChunkFile = Missing | Unreadable | Chunk(data: seq<byte>)

  function UploadHeader(id: SessionID, size: Int64): StreamHeader {
    StreamHeader(MAGIC_UPLOAD, id, size, DEFAULT_CHUNK_SIZE)
  }

  function OpenStream(id: SessionID, size: Int64, nodeIDs: seq<Uuid>): Stream {
    Stream(size, nodeIDs, seq(|nodeIDs|, i => HeaderBytes(UploadHeader(id, size))), 0)
  }

  /** `dialled` says that the master accepted and every connection took its header. */
  function InitChunkedUpload(h: Sessions, user: Uuid, hasName: bool, size: Int64, totalChunks: int,
                             id: SessionID, nodeIDs: seq<Uuid>, dialled: bool): (Sessions, Status)
  {
    if !hasName || size <= 0 || totalChunks <= 0 then (h, BadRequest)
    else if !dialled || nodeIDs == [] then (h, ServerError)
    else (h[id := Session(user, totalChunks, 0, OpenStream(id, size, nodeIDs))], Success)
  }

  function UploadChunk(h: Sessions, user: Uuid, id: SessionID, index: int, chunk: ChunkFile, ws: seq<WriteOutcome>)
    : (Sessions, Status)
    requires id in h ==> |h[id].stream.carried| <= |ws|
  {
    if id == [] then (h, BadRequest)
    else if id !in h then (h, NotFound)
    else if h[id].user != user then (h, Forbidden)
    else if index < 0 || index >= h[id].totalChunks || chunk.Missing? || index != h[id].nextChunk then (h, BadRequest)
    else if chunk.Unreadable? then (h, ServerError)
    else
      var (stream, ok) := WriteChunk(h[id].stream, chunk.data, ws);
      if ok then (h[id := h[id].(nextChunk := h[id].nextChunk + 1, stream := stream)], Success)
      else (h - {id}, ServerError)
  }

  /** The session is gone whatever the outcome. `saved` says that the database took the record. */
  function FinalizeChunkedUpload(h: Sessions, user: Uuid, id: SessionID, replies: seq<seq<byte>>, saved: bool)
    : (Sessions, Status)
    requires id in h ==> |replies| == |h[id].stream.nodeIDs|
  {
    if id !in h then (h, NotFound)
    else if h[id].user != user then (h - {id}, Forbidden)
    else if h[id].nextChunk != h[id].totalChunks then (h - {id}, BadRequest)
    else if Finalize(h[id].stream, replies).FinalizeFailed? || !saved then (h - {id}, ServerError)
    else (h - {id}, Success)
  }

  // ----- every mix of requests -----

  datatype Request =
    | InitRequest(user: Uuid, hasName: bool, size: Int64, totalChunks: int, id: SessionID, nodeIDs: seq<Uuid>,
        dialled: bool)
    | ChunkRequest(user: Uuid, id: SessionID, index: int, chunk: ChunkFile, ws: seq<WriteOutcome>)
    | FinalizeRequest(user: Uuid, id: SessionID, replies: seq<seq<byte>>, saved: bool)

  /** The connections of a session answer one by one. */
  predicate Answered(h: Sessions, q: Request) {
    match q
    case InitRequest(_, _, _, _, _, _, _) => true
    case ChunkRequest(_, id, _, _, ws) => id in h ==> |h[id].stream.carried| <= |ws|
    case FinalizeRequest(_, id, replies, _) => id in h ==> |replies| == |h[id].stream.nodeIDs|
  }

  function Handle(h: Sessions, q: Request): (Sessions, Status)
    requires Answered(h, q)
  {
    match q
    case InitRequest(user, hasName, size, totalChunks, id, nodeIDs, dialled) =>
      InitChunkedUpload(h, user, hasName, size, totalChunks, id, nodeIDs, dialled)
    case ChunkRequest(user, id, index, chunk, ws) => UploadChunk(h, user, id, index, chunk, ws)
    case FinalizeRequest(user, id, replies, saved) => FinalizeChunkedUpload(h, user, id, replies, saved)
  }

  /** A chunk request for `id` carries the slice of `file` that its index names, in any order and any number
      of times; nobody opens a second session under the same id. */
  predicate Honest(q: Request, id: SessionID, file: seq<byte>) {
    && (q.InitRequest? ==> q.id != id)
    && (q.ChunkRequest? && q.id == id && q.chunk.Chunk? && q.index >= 0 ==> q.chunk.data == Slice(file, q.index))
  }

  ghost predicate Run(h: Sessions, qs: seq<Request>, h': Sessions, id: SessionID, file: seq<byte>)
    decreases |qs|
  {
    if qs == [] then h == h'
    else Answered(h, qs[0]) && Honest(qs[0], id, file) && Run(Handle(h, qs[0]).0, qs[1..], h', id, file)
  }

  /** While the session lives, every connection has carried the header and the accepted slices. */
  ghost predicate Good(h: Sessions, id: SessionID, file: seq<byte>) {
    id in h ==>
      var s := h[id];
      && s.totalChunks == TotalChunks(|file|) && 0 <= s.nextChunk <= s.totalChunks
      && StreamGood(s.stream, id, file, Min(s.nextChunk * CHUNK_SIZE, |file|))
  }

  ghost predicate StreamGood(s: Stream, id: SessionID, file: seq<byte>, n: int) {
    && s.size == |file| && |s.carried| == |s.nodeIDs| && s.bytesWritten == n
    && forall i | 0 <= i < |s.carried| :: Carries(s.carried[i], id, file, n)
  }

  /** The header, then the first `n` bytes of the file. */
  ghost predicate Carries(c: seq<byte>, id: SessionID, file: seq<byte>, n: int) {
    && |file| < 0x8000_0000_0000_0000 && 0 <= n <= |file|
    && c == HeaderBytes(UploadHeader(id, |file|)) + file[..n]
  }

  lemma Associative(a: seq<byte>, b: seq<byte>, c: seq<byte>)
    ensures (a + b) + c == a + (b + c)
  {
  }

  lemma WriteChunkGood(s: Stream, data: seq<byte>, ws: seq<WriteOutcome>, id: SessionID, file: seq<byte>, n: int, n': int)
    requires StreamGood(s, id, file, n) && |s.carried| <= |ws| && WriteChunk(s, data, ws).1
    requires 0 <= n <= n' <= |file| && file[..n] + data == file[..n']
    ensures StreamGood(WriteChunk(s, data, ws).0, id, file, n')
  {
    var s' := WriteChunk(s, data, ws).0;
    WriteToEach(s.carried, data, ws, |s.carried|);
    forall i | 0 <= i < |s'.carried|
      ensures Carries(s'.carried[i], id, file, n')
    {
      assert Carries(s.carried[i], id, file, n);
      Associative(HeaderBytes(UploadHeader(id, |file|)), file[..n], data);
    }
  }

  lemma ChunkGood(h: Sessions, q: Request, id: SessionID, file: seq<byte>)
    requires q.ChunkRequest? && q.id == id && Answered(h, q) && Good(h, id, file) && Honest(q, id, file)
    ensures Good(Handle(h, q).0, id, file)
  {
    if Handle(h, q).1 == Success {
      var k := h[id].nextChunk;
      SliceExtends(file, k);
      WriteChunkGood(h[id].stream, q.chunk.data, q.ws, id, file, Min(k * CHUNK_SIZE, |file|),
          Min((k + 1) * CHUNK_SIZE, |file|));
    }
  }

  lemma StepGood(h: Sessions, q: Request, id: SessionID, file: seq<byte>)
    requires Answered(h, q) && Good(h, id, file) && Honest(q, id, file)
    ensures Good(Handle(h, q).0, id, file)
  {
    if q.ChunkRequest? && q.id == id {
      ChunkGood(h, q, id, file);
    }
  }

  lemma {:induction false} RunGood(h: Sessions, qs: seq<Request>, h': Sessions, id: SessionID, file: seq<byte>)
    requires Good(h, id, file) && Run(h, qs, h', id, file)
    ensures Good(h', id, file)
    decreases |qs|
  {
    if qs != [] {
      StepGood(h, qs[0], id, file);
      RunGood(Handle(h, qs[0]).0, qs[1..], h', id, file);
    }
  }

  // ----- the storage node -----

  /** What handleUpload stores of the bytes of a connection: it reads at most the announced size. */
  function StoredBytes(c: seq<byte>): Result<seq<byte>> {
    match DecodeHeader(c)
    case Err => Err
    case Ok(header) => Ok(c[HEADER_SIZE..][..Min(Max(header.fileSize, 0), |c| - HEADER_SIZE)])
  }

  lemma StoredIsFile(c: seq<byte>, id: SessionID, file: seq<byte>, more: seq<byte>)
    requires Carries(c, id, file, |file|) && |id| <= 36 && !EndsInNull(id)
    ensures StoredBytes(c + more) == Ok(file)
  {
    var header := UploadHeader(id, |file|);
    HeaderRoundTrip(header, file + more);
    assert c + more == HeaderBytes(header) + (file + more);
    assert (c + more)[HEADER_SIZE..] == file + more;
    assert (file + more)[..|file|] == file;
  }

  /** The node does not check that all announced bytes came: every connection with a good header has
      something stored, never more than announced, and all that was announced exactly when the size is not
      negative and that many bytes follow the header. */
  lemma CutConnectionStored(c: seq<byte>)
    requires DecodeHeader(c).Ok?
    ensures var size := DecodeHeader(c).value.fileSize; var rest := c[HEADER_SIZE..];
            && StoredBytes(c).Ok? && StoredBytes(c).value <= rest && |StoredBytes(c).value| <= Max(size, 0)
            && (|StoredBytes(c).value| == size <==> 0 <= size <= |c| - HEADER_SIZE)
            && (|StoredBytes(c).value| < size ==> StoredBytes(c).value == rest)
  {
    var size, rest := DecodeHeader(c).value.fileSize, c[HEADER_SIZE..];
    var n := Min(Max(size, 0), |rest|);
    assert rest[..n] <= rest && (n == |rest| ==> rest[..n] == rest);
  }

  /** Whatever requests come between opening the session and a finalize that succeeds, each storage
      connection has carried its header and exactly the file, and each node stores exactly the file. */
  lemma UploadDelivers(h: Sessions, user: Uuid, id: SessionID, file: seq<byte>, nodeIDs: seq<Uuid>,
                       qs: seq<Request>, h': Sessions, q: Request)
    requires |file| < 0x8000_0000_0000_0000 && |id| <= 36 && !EndsInNull(id)
    requires var begun := InitChunkedUpload(h, user, true, |file|, TotalChunks(|file|), id, nodeIDs, true);
             begun.1 == Success && Run(begun.0, qs, h', id, file)
    requires q.FinalizeRequest? && q.id == id && Answered(h', q) && Handle(h', q).1 == Success
    ensures id in h' && h'[id].stream.bytesWritten == |file|
    ensures forall c, more | c in h'[id].stream.carried ::
              c == HeaderBytes(UploadHeader(id, |file|)) + file && StoredBytes(c + more) == Ok(file)
    ensures Finalize(h'[id].stream, q.replies).Uploaded?
  {
    var begun := InitChunkedUpload(h, user, true, |file|, TotalChunks(|file|), id, nodeIDs, true).0;
    assert HeaderBytes(UploadHeader(id, |file|)) + file[..0] == HeaderBytes(UploadHeader(id, |file|));
    assert StreamGood(begun[id].stream, id, file, 0);
    RunGood(begun, qs, h', id, file);
    SliceExtends(file, 0);
    assert file[..|file|] == file;
    forall c, more | c in h'[id].stream.carried
      ensures c == HeaderBytes(UploadHeader(id, |file|)) + file && StoredBytes(c + more) == Ok(file)
    {
      assert Carries(c, id, file, |file|);
      StoredIsFile(c, id, file, more);
    }
  }
}

/** The objects of an upload: the browser's loop, the stream session and the handler. */
module UploadHandlers {
  import opened Uuids
  import opened StreamFrames
  import opened Upload
  import opened UploadAnswers

  /** The chunk loop of uploadFile: the slices it posts, in order, until the user cancels or a post fails. */
  method UploadFile(file: seq<byte>, cancelled: nat -> bool, accepted: nat -> bool)
    returns (posts: seq<(int, seq<byte>)>, ok: bool)
    ensures |posts| <= TotalChunks(|file|)
    ensures forall k | 0 <= k < |posts| :: posts[k] == (k, Slice(file, k)) && 0 < |posts[k].1| <= CHUNK_SIZE
    ensures ok <==> forall k | 0 <= k < TotalChunks(|file|) :: !cancelled(k) && accepted(k)
    ensures ok ==> |posts| == TotalChunks(|file|)
    ensures !ok ==> exists m :: StopsAtPost(m, |posts|, cancelled, accepted)
  {
    var totalChunks := (|file| + CHUNK_SIZE - 1) / CHUNK_SIZE;
    posts := [];
    for chunkIndex := 0 to totalChunks
      invariant |posts| == chunkIndex
      invariant forall k | 0 <= k < |posts| :: posts[k] == (k, Slice(file, k)) && 0 < |posts[k].1| <= CHUNK_SIZE
      invariant forall k | 0 <= k < chunkIndex :: !cancelled(k) && accepted(k)
    {
      if cancelled(chunkIndex) {
        assert StopsAtPost(chunkIndex, |posts|, cancelled, accepted);
        return posts, false;
      }
      var start := chunkIndex * CHUNK_SIZE;
      var end := if start + CHUNK_SIZE <= |file| then start + CHUNK_SIZE else |file|;
      posts := posts + [(chunkIndex, file[start..end])];
      if !accepted(chunkIndex) {
        assert StopsAtPost(chunkIndex, |posts|, cancelled, accepted);
        return posts, false;
      }
    }
    ok := true;
  }

  /** After `n` posts the loop stops at slice `m`: cancelled before it, or the post of it failed. */
  predicate StopsAtPost(m: nat, n: nat, cancelled: nat -> bool, accepted: nat -> bool) {
    && (forall k: nat | k < m :: !cancelled(k) && accepted(k))
    && if cancelled(m) then n == m else !accepted(m) && n == m + 1
  }

  class StreamUploadSession {
    const size: int
    const nodeIDs: seq<Uuid>
    var carried: seq<seq<byte>>
    var bytesWritten: int

    constructor (id: SessionID, size: Int64, nodeIDs: seq<Uuid>)
      ensures State() == OpenStream(id, size, nodeIDs)
    {
      this.size, this.nodeIDs := size, nodeIDs;
      bytesWritten := 0;
      carried := [];
      new;
      for i := 0 to |nodeIDs|
        invariant bytesWritten == 0 && |carried| == i
        invariant forall k | 0 <= k < i :: carried[k] == HeaderBytes(UploadHeader(id, size))
      {
        carried := carried + [HeaderBytes(StreamHeader(MAGIC_UPLOAD, id, size, DEFAULT_CHUNK_SIZE))];
      }
    }

    ghost function State(): Stream
      reads this
    {
      Stream(size, nodeIDs, carried, bytesWritten)
    }

    /** Writes the chunk to each connection in turn and stops at the first that does not take all of it. */
    method WriteChunk(data: seq<byte>, ws: seq<WriteOutcome>) returns (ok: bool)
      requires |carried| <= |ws|
      modifies this
      ensures (State(), ok) == Upload.WriteChunk(old(State()), data, ws)
    {
      for i := 0 to |carried|
        invariant |carried| == |old(carried)| && bytesWritten == old(bytesWritten)
        invariant (carried, true) == WriteTo(old(carried), data, ws, i)
      {
        carried := carried[i := carried[i] + Sent(data, ws[i])];
        if !Complete(data, ws[i]) {
          StopsAt(old(carried), data, ws, i + 1, |carried|);
          return false;
        }
      }
      bytesWritten := bytesWritten + |data|;
      return true;
    }

    method Close()
      modifies this
      ensures carried == []
    {
      carried := [];
    }

    method Finalize(replies: seq<seq<byte>>) returns (r: FinalizeResult)
      requires |replies| == |nodeIDs|
      ensures r == Upload.Finalize(State(), replies)
    {
      if bytesWritten != size {
        return FinalizeFailed;
      }
      var hash, failed, successfulNodes := [], false, [];
      for i := 0 to |replies|
        invariant Replies(hash, successfulNodes, failed) == Gather(nodeIDs, replies, i)
      {
        var resp := replies[i];
        if |resp| < RESPONSE_SIZE {
          failed := true;
          continue;
        }
        if resp[0] != 1 {
          failed := true;
          continue;
        }
        if hash == [] {
          hash := TrimNull(resp[1..65]);
        }
        successfulNodes := successfulNodes + [nodeIDs[i]];
      }
      return if failed then FinalizeFailed else Uploaded(hash, successfulNodes);
    }

    /** The loop of UploadFileStream: what the reader gives, chunk by chunk, then Finalize. */
    method UploadReads(pieces: seq<seq<byte>>, eof: bool, ws: seq<seq<WriteOutcome>>, replies: seq<seq<byte>>)
      returns (r: FinalizeResult)
      requires |replies| == |nodeIDs| && |ws| == |pieces| && forall w | w in ws :: |w| == |carried|
      modifies this
      ensures r.Uploaded? <==>
                && eof && (forall k | 0 <= k < |pieces| && pieces[k] != [] :: AllComplete(pieces[k], ws[k], |ws[k]|))
                && old(bytesWritten) + |Joined(pieces)| == size
                && forall i | 0 <= i < |replies| :: SaysStored(replies[i])
      ensures r.Uploaded? ==> r.nodeIDs == nodeIDs
      ensures r.Uploaded? ==>
                && |carried| == |old(carried)| && bytesWritten == size
                && bytesWritten == old(bytesWritten) + |Joined(pieces)|
                && forall i | 0 <= i < |carried| :: carried[i] == old(carried)[i] + Joined(pieces)
    {
      for k := 0 to |pieces|
        invariant |carried| == |old(carried)| && bytesWritten == old(bytesWritten) + |Joined(pieces[..k])|
        invariant forall i | 0 <= i < |carried| :: carried[i] == old(carried)[i] + Joined(pieces[..k])
        invariant forall j | 0 <= j < k && pieces[j] != [] :: AllComplete(pieces[j], ws[j], |ws[j]|)
      {
        assert pieces[..k + 1][..k] == pieces[..k];
        if |pieces[k]| > 0 {
          ghost var before := carried;
          var ok := WriteChunk(pieces[k], ws[k]);
          WriteToIff(before, pieces[k], ws[k], |before|);
          if !ok {
            return FinalizeFailed;
          }
          WriteToEach(before, pieces[k], ws[k], |before|);
        }
      }
      assert pieces[..|pieces|] == pieces;
      if !eof {
        return FinalizeFailed;
      }
      r := Finalize(replies);
      FinalizeMeans(State(), replies);
      forall i | 0 <= i < |replies|
        ensures StoredReply(replies[i]) <==> SaysStored(replies[i])
      {
        SaysStoredIs(replies[i]);
      }
    }
  }

  /** The bytes of all pieces. */
  function Joined(pieces: seq<seq<byte>>): seq<byte> {
    if pieces == [] then [] else Joined(pieces[..|pieces| - 1]) + pieces[|pieces| - 1]
  }

  /** After an incomplete write nothing more is written. */
  lemma {:induction false} StopsAt(carried: seq<seq<byte>>, data: seq<byte>, ws: seq<WriteOutcome>, i: nat, k: nat)
    requires i <= k <= |carried| <= |ws| && !WriteTo(carried, data, ws, i).1
    ensures WriteTo(carried, data, ws, k) == WriteTo(carried, data, ws, i)
    decreases k
  {
    if i < k {
      StopsAt(carried, data, ws, i, k - 1);
    }
  }

  class UploadSession {
    const user: Uuid
    const totalChunks: int
    const streamSession: StreamUploadSession
    var nextChunk: int

    constructor (user: Uuid, totalChunks: int, streamSession: StreamUploadSession)
      ensures this.user == user && this.totalChunks == totalChunks && this.streamSession == streamSession
          && nextChunk == 0
    {
      this.user, this.totalChunks, this.streamSession := user, totalChunks, streamSession;
      nextChunk := 0;
    }

    ghost function State(): Session
      reads this, streamSession
    {
      Session(user, totalChunks, nextChunk, streamSession.State())
    }

    /** What the handler does with a chunk it has accepted: write it, and count it or close the stream. */
    method TakeChunk(data: seq<byte>, ws: seq<WriteOutcome>) returns (ok: bool)
      requires |streamSession.carried| <= |ws|
      modifies this, streamSession
      ensures var (stream, written) := Upload.WriteChunk(old(State()).stream, data, ws);
              ok == written && (ok ==> State() == old(State()).(nextChunk := old(nextChunk) + 1, stream := stream))
    {
      ok := streamSession.WriteChunk(data, ws);
      if ok {
        nextChunk := nextChunk + 1;
      } else {
        streamSession.Close();
      }
    }
  }

  class FileHandler {
    var sessions: map<SessionID, UploadSession>

    constructor ()
      ensures Valid() && State() == map[]
    {
      sessions := map[];
    }

    /** No two ids share a session or its connections. */
    ghost predicate Valid()
      reads this
    {
      forall a, b | a in sessions && b in sessions && a != b ::
        sessions[a] != sessions[b] && sessions[a].streamSession != sessions[b].streamSession
    }

    ghost function Streams(): set<object>
      reads this
    {
      set id | id in sessions :: sessions[id].streamSession
    }

    ghost function State(): Sessions
      reads this, sessions.Values, Streams()
    {
      map id | id in sessions :: sessions[id].State()
    }

    /** The sessions other than that of `id` are as in `before`. */
    ghost predicate Kept(before: Sessions, id: SessionID)
      reads this, sessions.Values, Streams()
    {
      forall k | k in sessions && k != id :: k in before && sessions[k].State() == before[k]
    }

    lemma ReplacedState(before: Sessions, id: SessionID)
      requires id in sessions && sessions.Keys == before.Keys + {id} && Kept(before, id)
      ensures State() == before[id := sessions[id].State()]
    {
    }

    method InitChunkedUpload(user: Uuid, hasName: bool, size: Int64, totalChunks: int,
                             id: SessionID, nodeIDs: seq<Uuid>, dialled: bool) returns (status: Status)
      requires Valid()
      modifies this
      ensures Valid()
      ensures (State(), status)
              == Upload.InitChunkedUpload(old(State()), user, hasName, size, totalChunks, id, nodeIDs, dialled)
    {
      if !hasName || size <= 0 || totalChunks <= 0 {
        return BadRequest;
      }
      if !dialled || |nodeIDs| == 0 {
        return ServerError;
      }
      ghost var before := State();
      var streamSession := new StreamUploadSession(id, size, nodeIDs);
      var session := new UploadSession(user, totalChunks, streamSession);
      assert State() == before;
      sessions := sessions[id := session];
      ReplacedState(before, id);
      return Success;
    }

    method UploadChunk(user: Uuid, id: SessionID, index: int, chunk: ChunkFile, ws: seq<WriteOutcome>)
      returns (status: Status)
      requires Valid() && (id in sessions ==> |sessions[id].streamSession.carried| <= |ws|)
      modifies this, sessions.Values, Streams()
      ensures Valid()
      ensures (State(), status) == Upload.UploadChunk(old(State()), user, id, index, chunk, ws)
    {
      if id == [] {
        return BadRequest;
      }
      if id !in sessions {
        return NotFound;
      }
      var session := sessions[id];
      if session.user != user {
        return Forbidden;
      }
      if index < 0 || index >= session.totalChunks {
        return BadRequest;
      }
      if chunk.Missing? {
        return BadRequest;
      }
      if index != session.nextChunk {
        return BadRequest;
      }
      if chunk.Unreadable? {
        return ServerError;
      }
      ghost var before := State();
      var ok := session.TakeChunk(chunk.data, ws);
      assert Kept(before, id);
      if !ok {
        sessions := sessions - {id};
        RemovedState(before, id);
        return ServerError;
      }
      ReplacedState(before, id);
      return Success;
    }

    lemma RemovedState(before: Sessions, id: SessionID)
      requires sessions.Keys == before.Keys - {id} && Kept(before, id)
      ensures State() == before - {id}
    {
    }

    method FinalizeChunkedUpload(user: Uuid, id: SessionID, replies: seq<seq<byte>>, saved: bool)
      returns (status: Status)
      requires Valid() && (id in sessions ==> |replies| == |sessions[id].streamSession.nodeIDs|)
      modifies this, Streams()
      ensures Valid()
      ensures (State(), status) == Upload.FinalizeChunkedUpload(old(State()), user, id, replies, saved)
    {
      if id !in sessions {
        return NotFound;
      }
      var session := sessions[id];
      sessions := sessions - {id};
      if session.user != user {
        session.streamSession.Close();
        RemovedState(old(State()), id);
        return Forbidden;
      }
      if session.nextChunk != session.totalChunks {
        session.streamSession.Close();
        RemovedState(old(State()), id);
        return BadRequest;
      }
      var result := session.streamSession.Finalize(replies);
      if result.FinalizeFailed? {
        session.streamSession.Close();
        RemovedState(old(State()), id);
        return ServerError;
      }
      RemovedState(old(State()), id);
      if !saved {
        return ServerError;
      }
      return Success;
    }
  }
}
