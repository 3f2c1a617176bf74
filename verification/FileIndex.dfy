/** The master's file index (backend/dfs/node/node.go): what metadata responses and upload acknowledgements
    record, and the repair plans made from it. */
module FileIndex {
  import opened Basics
  import opened Uuids
  import opened Placement
  import opened RingOrder
  import opened RingChanges
  import Sorting

  const REQUIRED_REPLICAS := 3

  datatype FileMeta = FileMeta(fileID: Uuid, filename: string, hash: string, size: int, contentType: string)

  datatype FileInfo = FileInfo(meta: FileMeta, replicas: seq<Uuid>)

  type Index = map<string, FileInfo>

  datatype StreamSession = StreamSession(fileID: Uuid, filename: string, size: int, contentType: string,
                                         expectedNodes: seq<Uuid>, receivedAcks: map<Uuid, string>)

  type Sessions = map<string, StreamSession>

  // ----- metadata responses -----

  function Record(index: Index, node: Uuid, file: FileMeta): Index {
    if file.hash !in index then index[file.hash := FileInfo(file, [node])]
    else
      var existing := index[file.hash];
      if node in existing.replicas then index
      else index[file.hash := existing.(replicas := existing.replicas + [node])]
  }

  function RecordAll(index: Index, node: Uuid, files: seq<FileMeta>): Index {
    if files == [] then index else Record(RecordAll(index, node, files[..|files| - 1]), node, files[|files| - 1])
  }

  datatype Response = Response(node: Uuid, files: seq<FileMeta>)

  function Sync(rs: seq<Response>): Index {
    if rs == [] then map[] else RecordAll(Sync(rs[..|rs| - 1]), rs[|rs| - 1].node, rs[|rs| - 1].files)
  }

  ghost predicate Lists(files: seq<FileMeta>, hash: string) {
    exists k :: 0 <= k < |files| && files[k].hash == hash
  }

  /** `node` has reported a file of that hash. */
  ghost predicate Reported(rs: seq<Response>, node: Uuid, hash: string) {
    exists k :: 0 <= k < |rs| && rs[k].node == node && Lists(rs[k].files, hash)
  }

  ghost predicate Replica(index: Index, node: Uuid, hash: string) {
    hash in index && node in index[hash].replicas
  }

  lemma {:induction false} RecordAllReplicas(index: Index, node: Uuid, files: seq<FileMeta>, x: Uuid, hash: string)
    ensures Replica(RecordAll(index, node, files), x, hash)
            <==> Replica(index, x, hash) || (x == node && Lists(files, hash))
  {
    if files != [] {
      var front, last := files[..|files| - 1], files[|files| - 1];
      RecordAllReplicas(index, node, front, x, hash);
      assert Lists(files, hash) <==> Lists(front, hash) || last.hash == hash by {
        if k :| 0 <= k < |front| && front[k].hash == hash {
          assert files[k].hash == hash;
        }
        if k :| 0 <= k < |files| && files[k].hash == hash {
          assert k < |front| ==> front[k].hash == hash;
        }
      }
    }
  }

  /** Every entry of an index has a replica, and no node twice. */
  ghost predicate Tidy(index: Index) {
    forall hash | hash in index :: NoRepeats(index[hash].replicas)
  }

  ghost predicate NonEmpty(index: Index) {
    forall hash | hash in index :: index[hash].replicas != []
  }

  lemma {:induction false} RecordAllTidy(index: Index, node: Uuid, files: seq<FileMeta>)
    requires Tidy(index)
    ensures Tidy(RecordAll(index, node, files))
    ensures NonEmpty(index) ==> NonEmpty(RecordAll(index, node, files))
  {
    if files != [] {
      RecordAllTidy(index, node, files[..|files| - 1]);
    }
  }

  /** After any responses in any order with any repeats, a hash is in the index exactly when some node has
      reported it, and its replica list holds exactly the nodes that have, each once. */
  lemma {:induction false} SyncReplicas(rs: seq<Response>, node: Uuid, hash: string)
    ensures Replica(Sync(rs), node, hash) <==> Reported(rs, node, hash)
    ensures Tidy(Sync(rs)) && NonEmpty(Sync(rs))
  {
    if rs != [] {
      var front, last := rs[..|rs| - 1], rs[|rs| - 1];
      SyncReplicas(front, node, hash);
      RecordAllReplicas(Sync(front), last.node, last.files, node, hash);
      RecordAllTidy(Sync(front), last.node, last.files);
      if k :| 0 <= k < |front| && front[k].node == node && Lists(front[k].files, hash) {
        assert rs[k].node == node;
      }
      if k :| 0 <= k < |rs| && rs[k].node == node && Lists(rs[k].files, hash) {
        assert k < |front| ==> front[k].node == node;
      }
    }
  }

  ghost predicate SameReports(rs: seq<Response>, qs: seq<Response>) {
    forall node, hash :: Reported(rs, node, hash) <==> Reported(qs, node, hash)
  }

  /** The order and the repeats of the responses make no difference to who holds what. */
  lemma SyncOrderIndependent(rs: seq<Response>, qs: seq<Response>)
    requires SameReports(rs, qs)
    ensures Sync(rs).Keys == Sync(qs).Keys
    ensures forall hash | hash in Sync(rs) :: multiset(Sync(rs)[hash].replicas) == multiset(Sync(qs)[hash].replicas)
  {
    forall node, hash
      ensures Replica(Sync(rs), node, hash) <==> Replica(Sync(qs), node, hash)
    {
      SyncReplicas(rs, node, hash);
      SyncReplicas(qs, node, hash);
    }
    SyncReplicas(rs, NIL, "");
    SyncReplicas(qs, NIL, "");
    forall hash
      ensures hash in Sync(rs) <==> hash in Sync(qs)
    {
      assert hash in Sync(rs) ==> Replica(Sync(rs), Sync(rs)[hash].replicas[0], hash);
      assert hash in Sync(qs) ==> Replica(Sync(qs), Sync(qs)[hash].replicas[0], hash);
    }
    forall hash | hash in Sync(rs)
      ensures multiset(Sync(rs)[hash].replicas) == multiset(Sync(qs)[hash].replicas)
    {
      SameMembers(Sync(rs)[hash].replicas, Sync(qs)[hash].replicas, hash, Sync(rs), Sync(qs));
    }
  }

  lemma SameMembers(a: seq<Uuid>, b: seq<Uuid>, hash: string, i: Index, j: Index)
    requires hash in i && hash in j && a == i[hash].replicas && b == j[hash].replicas && NoRepeats(a) && NoRepeats(b)
    requires forall node, h :: Replica(i, node, h) <==> Replica(j, node, h)
    ensures multiset(a) == multiset(b)
  {
    forall x
      ensures multiset(a)[x] == multiset(b)[x]
    {
      assert Replica(i, x, hash) <==> Replica(j, x, hash);
      CountsOne(a, x);
      CountsOne(b, x);
    }
  }

  // ----- uploads -----

  /** The nodes that FindNodesForFile picks for a file. */
  function Placed(ring: RingState, hash: string -> Position, fileID: Uuid): seq<Uuid> {
    FindIds(ring, hash(Text(fileID)), REQUIRED_REPLICAS)
  }

  /** An acknowledgement, and the completion of the upload when as many as expected have come. */
  function StoreAck(index: Index, sessions: Sessions, id: string, node: Uuid, hash: string): (Index, Sessions) {
    if id !in sessions then (index, sessions)
    else
      var s := sessions[id].(receivedAcks := sessions[id].receivedAcks[node := hash]);
      if |s.receivedAcks| >= |s.expectedNodes| then
        (index[hash := FileInfo(FileMeta(s.fileID, s.filename, hash, s.size, s.contentType), s.expectedNodes)],
            sessions - {id})
      else (index, sessions[id := s])
  }

  datatype Event =
    | Respond(r: Response)
    | Begin(id: string, fileID: Uuid, filename: string, size: int, contentType: string, ring: RingState)
    | Ack(id: string, node: Uuid, hash: string)

  function Step(index: Index, sessions: Sessions, e: Event, hash: string -> Position): (Index, Sessions) {
    match e
    case Respond(r) => (RecordAll(index, r.node, r.files), sessions)
    case Begin(id, fileID, filename, size, contentType, ring) =>
      var nodes := Placed(ring, hash, fileID);
      if nodes == [] then (index, sessions)
      else (index, sessions[id := StreamSession(fileID, filename, size, contentType, nodes, map[])])
    case Ack(id, node, h) => StoreAck(index, sessions, id, node, h)
  }

  function Steps(es: seq<Event>, hash: string -> Position): (Index, Sessions) {
    if es == [] then (map[], map[])
    else
      var (index, sessions) := Steps(es[..|es| - 1], hash);
      Step(index, sessions, es[|es| - 1], hash)
  }

  lemma PlacedDistinct(ring: RingState, hash: string -> Position, fileID: Uuid)
    requires Sorting.Sorted(ring.ring, Below)
    ensures NoRepeats(Placed(ring, hash, fileID))
  {
    var h := hash(Text(fileID));
    FindIsNearest(ring, h, REQUIRED_REPLICAS);
    var ids := Placed(ring, hash, fileID);
    forall i, j | 0 <= i < j < |ids|
      ensures ids[i] != ids[j]
    {
      OrderedDistinct(ring, h, ids, i, j);
    }
  }

  /** Syncs, uploads and completions in any order keep every replica list free of duplicates. */
  lemma {:induction false} AlwaysTidy(es: seq<Event>, hash: string -> Position)
    requires forall e | e in es && e.Begin? :: Sorting.Sorted(e.ring.ring, Below)
    ensures var (index, sessions) := Steps(es, hash);
            Tidy(index) && NonEmpty(index)
            && forall id | id in sessions :: NoRepeats(sessions[id].expectedNodes) && sessions[id].expectedNodes != []
  {
    if es != [] {
      var front, e := es[..|es| - 1], es[|es| - 1];
      AlwaysTidy(front, hash);
      var (index, sessions) := Steps(front, hash);
      match e
      case Respond(r) => RecordAllTidy(index, r.node, r.files);
      case Begin(_, fileID, _, _, _, ring) => PlacedDistinct(ring, hash, fileID);
      case Ack(id, node, h) =>
    }
  }

  // ----- repair -----

  datatype Plan = NoPlan | Replicate(source: Uuid, targets: seq<Uuid>)

  function Missing(placed: seq<Uuid>, replicas: seq<Uuid>): seq<Uuid> {
    if placed == [] then []
    else Missing(placed[..|placed| - 1], replicas)
         + if placed[|placed| - 1] in replicas then [] else [placed[|placed| - 1]]
  }

  function InitiateReplication(info: FileInfo, placed: seq<Uuid>, peers: set<Uuid>): Plan {
    var missing := Missing(placed, info.replicas);
    if info.replicas == [] || missing == [] || info.replicas[0] !in peers then NoPlan
    else Replicate(info.replicas[0], missing)
  }

  lemma {:induction false} MissingMembers(placed: seq<Uuid>, replicas: seq<Uuid>)
    ensures forall x :: x in Missing(placed, replicas) <==> x in placed && x !in replicas
  {
    if placed != [] {
      var front, last := placed[..|placed| - 1], placed[|placed| - 1];
      MissingMembers(front, replicas);
      assert placed == front + [last];
    }
  }

  /** There is something to copy and a peer to copy it from. */
  ghost predicate Copyable(info: FileInfo, placed: seq<Uuid>, peers: set<Uuid>) {
    info.replicas != [] && info.replicas[0] in peers && exists x :: x in placed && x !in info.replicas
  }

  /** The plan copies from the first replica to exactly the placed nodes that are none. */
  ghost predicate Copies(plan: Plan, info: FileInfo, placed: seq<Uuid>) {
    && plan.Replicate? && info.replicas != [] && plan.source == info.replicas[0]
    && forall x :: x in plan.targets <==> x in placed && x !in info.replicas
  }

  lemma PlanIff(info: FileInfo, placed: seq<Uuid>, peers: set<Uuid>)
    ensures InitiateReplication(info, placed, peers).Replicate? <==> Copyable(info, placed, peers)
    ensures Copyable(info, placed, peers) ==> Copies(InitiateReplication(info, placed, peers), info, placed)
  {
    var missing := Missing(placed, info.replicas);
    MissingMembers(placed, info.replicas);
    if missing != [] {
      assert missing[0] in placed && missing[0] !in info.replicas;
    }
  }

  /** Only a file with too few replicas is repaired. */
  function Repair(info: FileInfo, ring: RingState, hash: string -> Position, peers: set<Uuid>): Plan {
    if |info.replicas| < REQUIRED_REPLICAS then
      InitiateReplication(info, Placed(ring, hash, info.meta.fileID), peers)
    else NoPlan
  }

  lemma {:induction false} MissingIs(placed: seq<Uuid>, replicas: seq<Uuid>)
    requires NoRepeats(placed)
    ensures NoRepeats(Missing(placed, replicas))
    ensures forall x :: x in Missing(placed, replicas) <==> x in placed && x !in replicas
  {
    if placed != [] {
      var front, last := placed[..|placed| - 1], placed[|placed| - 1];
      MissingIs(front, replicas);
      assert placed == front + [last] && last !in front;
    }
  }

  function Members(q: seq<Uuid>): set<Uuid> {
    set x | x in q
  }

  /** With the missing nodes, the replicas are at least as many as the placement. */
  lemma MissingCovers(placed: seq<Uuid>, replicas: seq<Uuid>)
    requires NoRepeats(placed)
    ensures |Members(replicas) + Members(Missing(placed, replicas))| >= |placed|
    ensures Missing(placed, replicas) == [] ==> |Members(replicas)| >= |placed|
  {
    var missing := Missing(placed, replicas);
    MissingIs(placed, replicas);
    DistinctCount(placed, Members(placed));
    SubsetSize(Members(placed), Members(replicas) + Members(missing));
    if missing == [] {
      assert Members(replicas) + Members(missing) == Members(replicas);
    }
  }

  /** A plan copies from a replica to distinct nodes of the ring placement that are no replicas yet, and with
      them the file has as many replicas as required or as there are live owners. Without a plan either
      there is no replica, or the first one is unknown, or the replicas are that many already. */
  lemma PlanCovers(info: FileInfo, ring: RingState, hash: string -> Position, peers: set<Uuid>)
    requires Sorting.Sorted(ring.ring, Below)
    ensures var placed := Placed(ring, hash, info.meta.fileID);
            var plan := InitiateReplication(info, placed, peers);
            var enough := Min(REQUIRED_REPLICAS, |LiveOwnerSet(ring)|);
            && (plan.Replicate? ==>
                  && plan.source in info.replicas && plan.source in peers
                  && NoRepeats(plan.targets) && plan.targets != []
                  && (forall x | x in plan.targets :: x in placed && x !in info.replicas)
                  && |Members(info.replicas) + Members(plan.targets)| >= enough)
            && (plan.NoPlan? ==> info.replicas == [] || info.replicas[0] !in peers || |Members(info.replicas)| >= enough)
  {
    var placed := Placed(ring, hash, info.meta.fileID);
    PlacedDistinct(ring, hash, info.meta.fileID);
    FindCount(ring, hash(Text(info.meta.fileID)), REQUIRED_REPLICAS);
    MissingIs(placed, info.replicas);
    MissingCovers(placed, info.replicas);
  }

  /** A file is repaired exactly when it has one or two replicas, the first of them a peer, and some placed node
      is none. */
  lemma RepairIff(info: FileInfo, ring: RingState, hash: string -> Position, peers: set<Uuid>)
    ensures var placed := Placed(ring, hash, info.meta.fileID); var plan := Repair(info, ring, hash, peers);
            && (plan.Replicate? <==> 1 <= |info.replicas| <= 2 && Copyable(info, placed, peers))
            && (plan.Replicate? ==> Copies(plan, info, placed))
  {
    PlanIff(info, Placed(ring, hash, info.meta.fileID), peers);
  }

  /** With the targets of such a plan, each new and named once, the file has three replicas, or as many as nodes
      of the ring own a position. */
  ghost predicate Covers(plan: Plan, info: FileInfo, ring: RingState) {
    && plan.Replicate? && NoRepeats(plan.targets) && (forall x | x in plan.targets :: x !in info.replicas)
    && |Members(info.replicas) + Members(plan.targets)| >= Min(3, |LiveOwnerSet(ring)|)
  }

  lemma RepairCovers(info: FileInfo, ring: RingState, hash: string -> Position, peers: set<Uuid>)
    requires Sorting.Sorted(ring.ring, Below) && Repair(info, ring, hash, peers).Replicate?
    ensures Covers(Repair(info, ring, hash, peers), info, ring)
  {
    PlanCovers(info, ring, hash, peers);
  }

  // ----- what the entries say -----

  /** Report `k` is the first with a file of that hash, and `m` the first such file of it. */
  ghost predicate FirstReport(rs: seq<Response>, hash: string, k: int, m: int) {
    && 0 <= k < |rs| && 0 <= m < |rs[k].files| && rs[k].files[m].hash == hash
    && (forall j | 0 <= j < m :: rs[k].files[j].hash != hash)
    && (forall j | 0 <= j < k :: !Lists(rs[j].files, hash))
  }

  /** Recording changes no meta data, and a new entry is one of a file in the report. */
  lemma {:induction false} RecordAllKeepsMeta(index: Index, node: Uuid, files: seq<FileMeta>, hash: string)
    ensures hash in index ==> hash in RecordAll(index, node, files)
                              && RecordAll(index, node, files)[hash].meta == index[hash].meta
    ensures hash in RecordAll(index, node, files) ==> hash in index || Lists(files, hash)
  {
    if files != [] {
      var front, last := files[..|files| - 1], files[|files| - 1];
      RecordAllKeepsMeta(index, node, front, hash);
      if k :| 0 <= k < |front| && front[k].hash == hash {
        assert files[k].hash == hash;
      }
      assert files[|front|] == last;
    }
  }

  lemma {:induction false} RecordAllFirst(index: Index, node: Uuid, files: seq<FileMeta>, m: nat)
    requires m < |files| && files[m].hash !in index && forall j | 0 <= j < m :: files[j].hash != files[m].hash
    ensures files[m].hash in RecordAll(index, node, files)
    ensures RecordAll(index, node, files)[files[m].hash].meta == files[m]
  {
    var front, hash := files[..|files| - 1], files[m].hash;
    if m < |front| {
      RecordAllFirst(index, node, front, m);
    } else {
      RecordAllKeepsMeta(index, node, front, hash);
      assert !Lists(front, hash);
    }
  }

  /** Later reports never change what the first one said of a file. */
  lemma {:induction false} SyncMeta(rs: seq<Response>, hash: string, k: int, m: int)
    requires FirstReport(rs, hash, k, m)
    ensures hash in Sync(rs) && Sync(rs)[hash].meta == rs[k].files[m]
    decreases |rs|
  {
    var front, last := rs[..|rs| - 1], rs[|rs| - 1];
    if k < |front| {
      assert FirstReport(front, hash, k, m);
      SyncMeta(front, hash, k, m);
      RecordAllKeepsMeta(Sync(front), last.node, last.files, hash);
    } else {
      NeverReported(front, hash);
      RecordAllFirst(Sync(front), last.node, last.files, m);
    }
  }

  lemma {:induction false} NeverReported(rs: seq<Response>, hash: string)
    requires forall j | 0 <= j < |rs| :: !Lists(rs[j].files, hash)
    ensures hash !in Sync(rs)
  {
    if rs != [] {
      var front, last := rs[..|rs| - 1], rs[|rs| - 1];
      NeverReported(front, hash);
      RecordAllKeepsMeta(Sync(front), last.node, last.files, hash);
    }
  }

  ghost predicate OtherSessionsStay(sessions: Sessions, sessions': Sessions, id: string) {
    forall k | k != id :: (k in sessions' <==> k in sessions) && (k in sessions ==> sessions'[k] == sessions[k])
  }

  /** A session is opened only if the ring has a node for the file, and waits for exactly the nodes the ring picks;
      no entry and no other session changes. */
  lemma BeginMeans(index: Index, sessions: Sessions, e: Event, hash: string -> Position)
    requires e.Begin?
    ensures var (index', sessions') := Step(index, sessions, e, hash);
            var nodes := FindIds(e.ring, hash(Text(e.fileID)), 3);
            && index' == index
            && (nodes == [] ==> sessions' == sessions)
            && OtherSessionsStay(sessions, sessions', e.id)
            && (nodes != [] ==>
                  && e.id in sessions' && sessions'[e.id].expectedNodes == nodes && sessions'[e.id].receivedAcks == map[]
                  && sessions'[e.id].fileID == e.fileID && sessions'[e.id].filename == e.filename
                  && sessions'[e.id].size == e.size && sessions'[e.id].contentType == e.contentType)
  {
  }

  /** The acknowledgement that completes an upload makes an entry of what the session says and the hash that was
      acknowledged, and ends the session; any other is noted. All other entries and sessions stay. */
  lemma StoreAckMeans(index: Index, sessions: Sessions, id: string, node: Uuid, hash: string)
    ensures var (index', sessions') := StoreAck(index, sessions, id, node, hash);
            && (forall g | g != hash :: (g in index' <==> g in index) && (g in index ==> index'[g] == index[g]))
            && OtherSessionsStay(sessions, sessions', id)
            && (id !in sessions ==> index' == index && id !in sessions')
            && (id in sessions ==>
                  var s := sessions[id]; var acked := s.receivedAcks.Keys + {node};
                  if |acked| < |s.expectedNodes| then
                    && index' == index && id in sessions' && sessions'[id].receivedAcks.Keys == acked
                    && sessions'[id].receivedAcks[node] == hash
                    && (forall x | x in s.receivedAcks && x != node :: sessions'[id].receivedAcks[x] == s.receivedAcks[x])
                    && sessions'[id].(receivedAcks := s.receivedAcks) == s
                  else
                    && id !in sessions' && hash in index'
                    && index'[hash].replicas == s.expectedNodes && index'[hash].meta.hash == hash
                    && index'[hash].meta.fileID == s.fileID && index'[hash].meta.filename == s.filename
                    && index'[hash].meta.size == s.size && index'[hash].meta.contentType == s.contentType)
  {
    if id in sessions {
      assert sessions[id].receivedAcks[node := hash].Keys == sessions[id].receivedAcks.Keys + {node};
    }
  }
}

/** The master's methods on its index. */
module MasterIndex {
  import opened Uuids
  import opened Placement
  import opened FileIndex
  import Sorting

  class Master {
    var globalFileIndex: Index
    var streamingSessions: Sessions

    constructor ()
      ensures globalFileIndex == map[] && streamingSessions == map[]
    {
      globalFileIndex, streamingSessions := map[], map[];
    }

    method HandleMetadataResponse(isMaster: bool, response: Response)
      modifies this
      ensures streamingSessions == old(streamingSessions)
      ensures globalFileIndex
              == if isMaster then RecordAll(old(globalFileIndex), response.node, response.files) else old(globalFileIndex)
    {
      if !isMaster {
        return;
      }
      for k := 0 to |response.files|
        invariant streamingSessions == old(streamingSessions)
        invariant globalFileIndex == RecordAll(old(globalFileIndex), response.node, response.files[..k])
      {
        assert response.files[..k + 1][..k] == response.files[..k];
        var file := response.files[k];
        if file.hash in globalFileIndex {
          var existing := globalFileIndex[file.hash];
          var found := false;
          for i := 0 to |existing.replicas|
            invariant !found && response.node !in existing.replicas[..i]
          {
            if existing.replicas[i] == response.node {
              found := true;
              break;
            }
          }
          assert existing.replicas[..|existing.replicas|] == existing.replicas;
          if !found {
            globalFileIndex := globalFileIndex[file.hash := existing.(replicas := existing.replicas + [response.node])];
          }
        } else {
          globalFileIndex := globalFileIndex[file.hash := FileInfo(file, [response.node])];
        }
      }
      assert response.files[..|response.files|] == response.files;
    }

    method HandleStreamStoreAck(id: string, node: Uuid, hash: string)
      modifies this
      ensures (globalFileIndex, streamingSessions)
              == StoreAck(old(globalFileIndex), old(streamingSessions), id, node, hash)
    {
      if id !in streamingSessions {
        return;
      }
      var session := streamingSessions[id];
      session := session.(receivedAcks := session.receivedAcks[node := hash]);
      streamingSessions := streamingSessions[id := session];
      if |session.receivedAcks| >= |session.expectedNodes| {
        var meta := FileMeta(session.fileID, session.filename, hash, session.size, session.contentType);
        globalFileIndex := globalFileIndex[hash := FileInfo(meta, session.expectedNodes)];
        streamingSessions := streamingSessions - {id};
        assert streamingSessions == old(streamingSessions) - {id};
      }
    }

    method PlanReplication(info: FileInfo, ring: RingState, hash: string -> Position,
                           peers: set<Uuid>) returns (plan: Plan)
      ensures plan == InitiateReplication(info, Placed(ring, hash, info.meta.fileID), peers)
    {
      if |info.replicas| == 0 {
        return NoPlan;
      }
      var expectedNodes := Placed(ring, hash, info.meta.fileID);
      var missingNodes := [];
      for k := 0 to |expectedNodes|
        invariant missingNodes == FileIndex.Missing(expectedNodes[..k], info.replicas)
      {
        assert expectedNodes[..k + 1][..k] == expectedNodes[..k];
        if expectedNodes[k] !in info.replicas {
          missingNodes := missingNodes + [expectedNodes[k]];
        }
      }
      assert expectedNodes[..|expectedNodes|] == expectedNodes;
      if |missingNodes| == 0 || info.replicas[0] !in peers {
        return NoPlan;
      }
      return Replicate(info.replicas[0], missingNodes);
    }

    /** One plan for each file that has too few replicas, where there is one to make. */
    method VerifyAndRepairReplication(ring: RingState, hash: string -> Position, peers: set<Uuid>)
      returns (plans: map<string, Plan>)
      ensures forall h :: h in plans
                          <==> h in globalFileIndex && 1 <= |globalFileIndex[h].replicas| <= 2
                               && Copyable(globalFileIndex[h], PlacedFor(h, ring, hash), peers)
      ensures forall h | h in plans :: Copies(plans[h], globalFileIndex[h], PlacedFor(h, ring, hash))
      ensures Sorting.Sorted(ring.ring, Below) ==> forall h | h in plans :: Covers(plans[h], globalFileIndex[h], ring)
      ensures forall h | h in plans :: plans[h] == Repair(globalFileIndex[h], ring, hash, peers)
    {
      plans := map[];
      var todo := globalFileIndex.Keys;
      while todo != {}
        invariant todo <= globalFileIndex.Keys
        invariant forall h :: h in plans <==> h in globalFileIndex && h !in todo
                                              && Repair(globalFileIndex[h], ring, hash, peers).Replicate?
        invariant forall h | h in plans :: plans[h] == Repair(globalFileIndex[h], ring, hash, peers)
      {
        var h :| h in todo;
        todo := todo - {h};
        if |globalFileIndex[h].replicas| < REQUIRED_REPLICAS {
          var plan := PlanReplication(globalFileIndex[h], ring, hash, peers);
          if plan.Replicate? {
            plans := plans[h := plan];
          }
        }
      }
      forall h | h in globalFileIndex
        ensures h in plans <==> 1 <= |globalFileIndex[h].replicas| <= 2
                                && Copyable(globalFileIndex[h], PlacedFor(h, ring, hash), peers)
        ensures h in plans ==> Copies(plans[h], globalFileIndex[h], PlacedFor(h, ring, hash))
        ensures h in plans && Sorting.Sorted(ring.ring, Below) ==> Covers(plans[h], globalFileIndex[h], ring)
      {
        RepairIff(globalFileIndex[h], ring, hash, peers);
        if h in plans && Sorting.Sorted(ring.ring, Below) {
          RepairCovers(globalFileIndex[h], ring, hash, peers);
        }
      }
    }

    /** The nodes that the ring picks for the file of an entry. */
    ghost function PlacedFor(h: string, ring: RingState, hash: string -> Position): seq<Uuid>
      requires h in globalFileIndex
      reads this
    {
      Placed(ring, hash, globalFileIndex[h].meta.fileID)
    }
  }
}
