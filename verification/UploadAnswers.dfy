/** What the upload handler answers to each request and why (backend/internal/handlers/file_handler.go), and that an
    upload whose slices are all accepted ends in success. */
module UploadAnswers {
  import opened Basics
  import opened Uuids
  import opened StreamFrames
  import opened Upload

  // ----- writing to the connections -----

  ghost predicate AllComplete(data: seq<byte>, ws: seq<WriteOutcome>, k: int) {
    forall i | 0 <= i < k <= |ws| :: ws[i].Wrote? && ws[i].n == |data|
  }

  lemma {:induction false} WriteToIff(carried: seq<seq<byte>>, data: seq<byte>, ws: seq<WriteOutcome>, k: nat)
    requires k <= |carried| <= |ws|
    ensures WriteTo(carried, data, ws, k).1 <==> AllComplete(data, ws, k)
  {
    if k > 0 {
      WriteToIff(carried, data, ws, k - 1);
    }
  }

  /** At the first write that is not complete, to connection `m`, only some of the chunk has gone out; the
      connections before it have all of it and those behind it nothing. */
  lemma {:induction false} WriteToStops(carried: seq<seq<byte>>, data: seq<byte>, ws: seq<WriteOutcome>, m: nat, k: nat)
    requires m < k <= |carried| <= |ws| && AllComplete(data, ws, m) && !(ws[m].Wrote? && ws[m].n == |data|)
    ensures var (after, ok) := WriteTo(carried, data, ws, k);
            && !ok && |after| == |carried|
            && (forall i | 0 <= i < m :: after[i] == carried[i] + data)
            && after[m] == carried[m] + data[..Min(ws[m].n, |data|)]
            && (forall i | m < i < |carried| :: after[i] == carried[i])
  {
    if k == m + 1 {
      WriteToIff(carried, data, ws, m);
      WriteToEach(carried, data, ws, m);
    } else {
      WriteToStops(carried, data, ws, m, k - 1);
    }
  }

  // ----- the three requests -----

  /** Only the session of `id` may differ. */
  ghost predicate OthersStay(h: Sessions, h': Sessions, id: SessionID) {
    forall k | k != id :: (k in h' <==> k in h) && (k in h ==> h'[k] == h[k])
  }

  lemma InitMeans(h: Sessions, user: Uuid, hasName: bool, size: Int64, totalChunks: int, id: SessionID,
                  nodeIDs: seq<Uuid>, dialled: bool)
    ensures var (h', status) := InitChunkedUpload(h, user, hasName, size, totalChunks, id, nodeIDs, dialled);
            && (status == BadRequest <==> !hasName || size <= 0 || totalChunks <= 0)
            && (status == Success <==> hasName && size > 0 && totalChunks > 0 && dialled && |nodeIDs| > 0)
            && status in {Success, BadRequest, ServerError} && OthersStay(h, h', id)
            && (status != Success ==> h' == h)
            && (status == Success ==>
                  && id in h' && h'[id].user == user && h'[id].totalChunks == totalChunks && h'[id].nextChunk == 0
                  && h'[id].stream.size == size && h'[id].stream.nodeIDs == nodeIDs && h'[id].stream.bytesWritten == 0
                  && |h'[id].stream.carried| == |nodeIDs|
                  && forall c | c in h'[id].stream.carried ::
                       c == HeaderBytes(StreamHeader(MAGIC_UPLOAD, id, size, 4 * 1024 * 1024)))
  {
  }

  /** A chunk that the handler takes on: the next one of the caller's own session. */
  ghost predicate Expected(h: Sessions, user: Uuid, id: SessionID, index: int, chunk: ChunkFile) {
    && id != [] && id in h && h[id].user == user && 0 <= index < h[id].totalChunks && index == h[id].nextChunk
    && chunk.Chunk?
  }

  /** `s'` is `s` after the chunk `data` was taken whole by every connection. */
  ghost predicate OneChunkOn(s: Session, s': Session, data: seq<byte>) {
    && s'.user == s.user && s'.totalChunks == s.totalChunks && s'.nextChunk == s.nextChunk + 1
    && s'.stream.size == s.stream.size && s'.stream.nodeIDs == s.stream.nodeIDs
    && s'.stream.bytesWritten == s.stream.bytesWritten + |data|
    && |s'.stream.carried| == |s.stream.carried|
    && forall i | 0 <= i < |s.stream.carried| :: s'.stream.carried[i] == s.stream.carried[i] + data
  }

  /** A chunk succeeds exactly when it is expected and every connection takes all of it. A chunk that is refused,
      by whoever it was sent, leaves every session alone; one that is expected and fails ends the session. */
  lemma ChunkMeans(h: Sessions, user: Uuid, id: SessionID, index: int, chunk: ChunkFile, ws: seq<WriteOutcome>)
    requires id in h ==> |h[id].stream.carried| <= |ws|
    ensures var (h', status) := UploadChunk(h, user, id, index, chunk, ws);
            && (status == Success <==> Expected(h, user, id, index, chunk)
                                       && AllComplete(chunk.data, ws, |h[id].stream.carried|))
            && (status == NotFound <==> id != [] && id !in h)
            && (status == Forbidden <==> id != [] && id in h && h[id].user != user)
            && (status == BadRequest <==>
                  id == [] || (id in h && h[id].user == user
                               && (index < 0 || index >= h[id].totalChunks || index != h[id].nextChunk || chunk.Missing?)))
            && OthersStay(h, h', id)
            && (!Expected(h, user, id, index, chunk) ==> h' == h)
            && (Expected(h, user, id, index, chunk) && status != Success ==> id !in h')
            && (status == Success ==> id in h' && OneChunkOn(h[id], h'[id], chunk.data))
  {
    if Expected(h, user, id, index, chunk) {
      var s := h[id].stream;
      WriteToIff(s.carried, chunk.data, ws, |s.carried|);
      if AllComplete(chunk.data, ws, |s.carried|) {
        WriteToEach(s.carried, chunk.data, ws, |s.carried|);
      }
    }
  }

  /** A reply of the whole 321 bytes that says the file is stored. */
  ghost predicate SaysStored(reply: seq<byte>) {
    |reply| >= 321 && ResponseOf(reply[..321]).Stored?
  }

  lemma SaysStoredIs(reply: seq<byte>)
    ensures StoredReply(reply) <==> SaysStored(reply)
  {
  }

  /** A finalize succeeds exactly when the caller's own session has all chunks and bytes, every storage node
      answers that it stored the file, and the record was saved. The session is gone in every case. */
  lemma FinalizeAnswers(h: Sessions, user: Uuid, id: SessionID, replies: seq<seq<byte>>, saved: bool)
    requires id in h ==> |replies| == |h[id].stream.nodeIDs|
    ensures var (h', status) := FinalizeChunkedUpload(h, user, id, replies, saved);
            && (status == NotFound <==> id !in h)
            && (status == Forbidden <==> id in h && h[id].user != user)
            && (status == BadRequest <==> id in h && h[id].user == user && h[id].nextChunk != h[id].totalChunks)
            && (status == Success <==>
                  && id in h && h[id].user == user && h[id].nextChunk == h[id].totalChunks
                  && h[id].stream.bytesWritten == h[id].stream.size
                  && (forall i | 0 <= i < |replies| :: SaysStored(replies[i])) && saved)
            && id !in h' && OthersStay(h, h', id)
  {
    forall i | 0 <= i < |replies|
      ensures StoredReply(replies[i]) <==> SaysStored(replies[i])
    {
      SaysStoredIs(replies[i]);
    }
    if id in h {
      FinalizeMeans(h[id].stream, replies);
    }
  }

  // ----- the hash of an upload -----

  /** The first `k` replies name no hash. */
  ghost predicate NoHash(replies: seq<seq<byte>>, k: int) {
    forall j | 0 <= j < k <= |replies| && SaysStored(replies[j]) :: ResponseOf(replies[j][..321]).hash == []
  }

  lemma ReplyHash(reply: seq<byte>)
    requires SaysStored(reply)
    ensures TrimNull(reply[1..65]) == ResponseOf(reply[..321]).hash
  {
    assert reply[..321][1..65] == reply[1..65];
  }

  lemma {:induction false} GatherHash(nodeIDs: seq<Uuid>, replies: seq<seq<byte>>, k: nat, m: nat)
    requires k <= |replies| == |nodeIDs| && m <= k && NoHash(replies, m)
    requires m < k ==> SaysStored(replies[m]) && ResponseOf(replies[m][..321]).hash != []
    ensures Gather(nodeIDs, replies, k).hash == if m < k then ResponseOf(replies[m][..321]).hash else []
  {
    if k > 0 {
      SaysStoredIs(replies[k - 1]);
      if SaysStored(replies[k - 1]) {
        ReplyHash(replies[k - 1]);
      }
      GatherHash(nodeIDs, replies, k - 1, if m < k then m else k - 1);
    }
  }

  /** The hash of a finished upload is the one that the first storage node to name one has sent; there is none
      exactly if nobody names one. */
  lemma FinalizeHash(s: Stream, replies: seq<seq<byte>>, m: nat)
    requires |replies| == |s.nodeIDs| && Finalize(s, replies).Uploaded?
    requires m <= |replies| && NoHash(replies, m)
    requires m < |replies| ==> SaysStored(replies[m]) && ResponseOf(replies[m][..321]).hash != []
    ensures Finalize(s, replies).hash == if m < |replies| then ResponseOf(replies[m][..321]).hash else []
  {
    GatherHash(s.nodeIDs, replies, |replies|, m);
  }

  // ----- uploads that succeed -----

  /** After any mix of requests that leaves the session, finalizing it succeeds exactly when its owner asks, all
      slices were accepted, every storage node says it stored the file, and the record was saved. */
  lemma DeliveredIff(h: Sessions, qs: seq<Request>, h': Sessions, id: SessionID, file: seq<byte>,
                     user: Uuid, replies: seq<seq<byte>>, saved: bool)
    requires Good(h, id, file) && Run(h, qs, h', id, file) && id in h' && |replies| == |h'[id].stream.nodeIDs|
    ensures Handle(h', FinalizeRequest(user, id, replies, saved)).1 == Success
            <==> user == h'[id].user && h'[id].nextChunk == TotalChunks(|file|)
                 && (forall i | 0 <= i < |replies| :: SaysStored(replies[i])) && saved
  {
    RunGood(h, qs, h', id, file);
    FinalizeAnswers(h', user, id, replies, saved);
    SliceExtends(file, 0);
  }

  /** In the run the owner posts the slices from `k` on in order and every connection takes all of them; what
      other requests there are concern other sessions. */
  ghost predicate PostsAll(h: Sessions, qs: seq<Request>, h': Sessions, id: SessionID, user: Uuid,
                           file: seq<byte>, k: nat)
    decreases |qs|
  {
    if qs == [] then h' == h && k == TotalChunks(|file|)
    else
      && Answered(h, qs[0])
      && if qs[0].id != id then PostsAll(Handle(h, qs[0]).0, qs[1..], h', id, user, file, k)
         else PostsSlice(h, qs[0], id, user, file, k) && PostsAll(Handle(h, qs[0]).0, qs[1..], h', id, user, file, k + 1)
  }

  ghost predicate PostsSlice(h: Sessions, q: Request, id: SessionID, user: Uuid, file: seq<byte>, k: nat) {
    && k < TotalChunks(|file|) && q.ChunkRequest? && q.id == id && q.user == user && q.index == k
    && q.chunk == Chunk(Slice(file, k)) && AllComplete(q.chunk.data, q.ws, |q.ws|)
  }

  lemma OtherRequest(h: Sessions, q: Request, id: SessionID)
    requires Answered(h, q) && q.id != id && id in h
    ensures id in Handle(h, q).0 && Handle(h, q).0[id] == h[id]
  {
  }

  lemma SliceAccepted(h: Sessions, q: Request, id: SessionID, user: Uuid, file: seq<byte>, k: nat)
    requires id != [] && id in h && h[id].user == user && h[id].totalChunks == TotalChunks(|file|) && h[id].nextChunk == k
    requires Answered(h, q) && PostsSlice(h, q, id, user, file, k)
    ensures Handle(h, q).1 == Success && id in Handle(h, q).0 && OneChunkOn(h[id], Handle(h, q).0[id], Slice(file, k))
  {
    ChunkMeans(h, user, id, k, q.chunk, q.ws);
  }

  lemma {:induction false} AllAccepted(h: Sessions, qs: seq<Request>, h': Sessions, id: SessionID, user: Uuid,
                                       file: seq<byte>, k: nat)
    requires id != [] && id in h && h[id].user == user && h[id].totalChunks == TotalChunks(|file|) && h[id].nextChunk == k
    requires PostsAll(h, qs, h', id, user, file, k)
    ensures Run(h, qs, h', id, file) && id in h' && h'[id].user == user && h'[id].nextChunk == TotalChunks(|file|)
    ensures h'[id].stream.nodeIDs == h[id].stream.nodeIDs
    decreases |qs|
  {
    if qs != [] {
      var q, h1 := qs[0], Handle(h, qs[0]).0;
      if q.id != id {
        OtherRequest(h, q, id);
        AllAccepted(h1, qs[1..], h', id, user, file, k);
      } else {
        SliceAccepted(h, q, id, user, file, k);
        AllAccepted(h1, qs[1..], h', id, user, file, k + 1);
      }
    }
  }

  /** An upload that is opened, whose slices the owner posts in order with every connection taking all of them,
      succeeds when every storage node says it stored the file and the record is saved. */
  lemma UploadSucceeds(h: Sessions, user: Uuid, id: SessionID, file: seq<byte>, nodeIDs: seq<Uuid>,
                       qs: seq<Request>, h': Sessions, replies: seq<seq<byte>>)
    requires 0 < |file| < 0x8000_0000_0000_0000 && id != [] && nodeIDs != [] && |replies| == |nodeIDs|
    requires var begun := InitChunkedUpload(h, user, true, |file|, TotalChunks(|file|), id, nodeIDs, true).0;
             PostsAll(begun, qs, h', id, user, file, 0)
    requires forall i | 0 <= i < |replies| :: SaysStored(replies[i])
    ensures InitChunkedUpload(h, user, true, |file|, TotalChunks(|file|), id, nodeIDs, true).1 == Success
    ensures id in h' && |h'[id].stream.nodeIDs| == |replies|
    ensures Handle(h', FinalizeRequest(user, id, replies, true)).1 == Success
  {
    var begun := InitChunkedUpload(h, user, true, |file|, TotalChunks(|file|), id, nodeIDs, true).0;
    AllAccepted(begun, qs, h', id, user, file, 0);
    assert HeaderBytes(UploadHeader(id, |file|)) + file[..0] == HeaderBytes(UploadHeader(id, |file|));
    assert StreamGood(begun[id].stream, id, file, 0);
    DeliveredIff(begun, qs, h', id, file, user, replies, true);
  }
}
