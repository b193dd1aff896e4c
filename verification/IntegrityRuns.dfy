/** Every step of the replicated store keeps the integrity invariant, so every run does. */
module IntegrityRuns {
  import opened Bytes
  import opened Types
  import opened ChunkFormat
  import opened MetadataStore
  import opened Selection
  import opened Scan
  import opened Planner
  import opened Protocol
  import opened Integrity

  /** The slice that a put sends for its current chunk is the slice that chunk was born with. */
  lemma PutSlice(cfg: Config, h: History, p: PutState)
    requires PutOk(cfg, h, p) && p.k < |p.plan|
    ensures p.plan[p.k].chunkId in h.births
    ensures PutBytes(p) == h.births[p.plan[p.k].chunkId].bytes
    ensures |PutBytes(p)| == p.plan[p.k].size
  {
    hide Slice, TotalSize;
    assert ChunkOk(cfg, h, p.plan[p.k]);
  }

  lemma PutMessages(cfg: Config, h: History, corrupt: bool, p: PutState,
                    replicas: seq<ReplicaInfo>)
    requires ConfigOk(cfg) && HistOk(h) && PutOk(cfg, h, p) && p.k < |p.plan|
    ensures WriteOk(cfg, h, corrupt, PutHeader(cfg, p), PutBytes(p))
    ensures MsgOk(cfg, h, corrupt, UpdateMsg(p.objectId, PutChunk(cfg, p, replicas)))
  {
    PutSlice(cfg, h, p);
    hide PutBytes;
    assert ChunkOk(cfg, h, p.plan[p.k]);
  }

  lemma PutAdvances(cfg: Config, h: History, p: PutState, acked: bool)
    requires PutOk(cfg, h, p) && p.k < |p.plan|
    ensures PutOk(cfg, h, PutNext(p, acked))
  {
    hide Slice, ChunkOk;
    TotalPrefix(p.plan, p.k);
  }

  /** What a client step promises: the core invariant, and a sound new program point. */
  ghost predicate Moved(cfg: Config, s: State, s': State, tid: nat) {
    && Core(cfg, s')
    && Grows(s.hist, s'.hist)
    && s'.corrupt == s.corrupt
    && tid in s'.ops && s'.ops == s.ops[tid := s'.ops[tid]]
    && OpOk(cfg, s'.hist, s'.corrupt, s'.ops[tid])
  }

  lemma OpOf(cfg: Config, s: State, tid: nat)
    requires Inv(cfg, s) && tid in s.ops
    ensures OpOk(cfg, s.hist, s.corrupt, s.ops[tid])
  {
    hide OpOk, Core;
  }

  lemma HistOf(cfg: Config, s: State)
    requires Core(cfg, s)
    ensures HistOk(s.hist)
  {
    hide HistOk, MetaOk, DisksOk, SentOk;
  }

  lemma Same(cfg: Config, s: State, tid: nat)
    requires Inv(cfg, s) && tid in s.ops
    ensures Moved(cfg, s, s, tid)
  {
  }

  /** From `s`, which differs from `s0` by server effects only, the program point moves. */
  lemma LocalMove(cfg: Config, s0: State, s: State, s': State, tid: nat, op: Op)
    requires Core(cfg, s) && OpOk(cfg, s.hist, s.corrupt, op)
    requires Grows(s0.hist, s.hist) && s.corrupt == s0.corrupt && s.ops == s0.ops
    requires s' == SetOp(s.(repeated := s'.repeated, lost := s'.lost), tid, op)
    ensures Moved(cfg, s0, s', tid)
  {
    hide OpOk, MetaOk, MsgOk;
    MetaSame(cfg, s, s');
    CoreFrame(cfg, s, s');
  }

  lemma PutCreateMoves(cfg: Config, s: State, tid: nat, c: Choice)
    requires ConfigOk(cfg) && Inv(cfg, s) && tid in s.ops && s.ops[tid].PutCreate?
    requires ClientEnabled(cfg, s, s.ops[tid], c)
    ensures Moved(cfg, s, PutStep(cfg, s, tid, c), tid)
  {
    hide Core, PutOk, FreshIds, Births, Moved, OpsOk;
    OpOf(cfg, s, tid);
    var op := s.ops[tid];
    var m := CreateMsg(op.filename, op.data);
    var s1 := Send(s, m);
    SendOk(cfg, s, m);
    if c.answered {
      assert FreshIds(cfg, s1, op.data, c.id, c.uuids) by { FreshAfterSend(cfg, s, m, op.data, c); }
      ServeCreateOk(cfg, s1, op.filename, op.data, c.id, c.uuids);
      var (s2, obj) := ServeCreate(cfg, s1, op.filename, op.data, c.id, c.uuids);
      if obj.Some? {
        LocalMove(cfg, s, s2, PutStep(cfg, s, tid, c), tid,
                  PutSelect(PutState(c.id, op.filename, op.data, obj.value.chunks, 0, 0,
                                    true)));
      } else {
        LocalMove(cfg, s, s2, PutStep(cfg, s, tid, c), tid, Ended);
      }
    } else {
      LocalMove(cfg, s, s1, PutStep(cfg, s, tid, c), tid, Ended);
    }
  }

  lemma FreshAfterSend(cfg: Config, s: State, m: Msg, data: Bytes, c: Choice)
    requires cfg.chunkSize > 0 && FreshIds(cfg, s, data, c.id, c.uuids)
    ensures FreshIds(cfg, Send(s, m), data, c.id, c.uuids)
  {
  }

  lemma PutWriteMoves(cfg: Config, s: State, tid: nat, c: Choice)
    requires ConfigOk(cfg) && Inv(cfg, s) && tid in s.ops && s.ops[tid].PutWrite?
    requires ClientEnabled(cfg, s, s.ops[tid], c)
    ensures Moved(cfg, s, PutStep(cfg, s, tid, c), tid)
  {
    hide Core, Moved, OpsOk, PutOk, WriteOk, PutHeader, PutBytes, HistOk;
    OpOf(cfg, s, tid);
    var op := s.ops[tid];
    var p := op.put;
    var s' := PutStep(cfg, s, tid, c);
    HistOf(cfg, s);
    PutMessages(cfg, s.hist, s.corrupt, p, op.replicas);
    if op.i >= |op.nodes| {
      LocalMove(cfg, s, s, s', tid, s'.ops[tid]);
    } else {
      var address := op.nodes[op.i].address;
      var m := WriteMsg(address, PutHeader(cfg, p), PutBytes(p));
      var s1 := Send(s, m);
      SendOk(cfg, s, m);
      if c.answered {
        ServeWriteOk(cfg, s1, address, PutHeader(cfg, p), PutBytes(p), c.now, c.wfate);
        var s2 := ServeWrite(cfg, s1, address, PutHeader(cfg, p), PutBytes(p), c.now, c.wfate).0;
        LocalMove(cfg, s, s2, s', tid, s'.ops[tid]);
      } else {
        LocalMove(cfg, s, s1, s', tid, s'.ops[tid]);
      }
    }
  }

  lemma PutPublishMoves(cfg: Config, s: State, tid: nat, c: Choice)
    requires ConfigOk(cfg) && Inv(cfg, s) && tid in s.ops && s.ops[tid].PutPublish?
    requires ClientEnabled(cfg, s, s.ops[tid], c)
    ensures Moved(cfg, s, PutStep(cfg, s, tid, c), tid)
  {
    hide Core, Moved, OpsOk, PutOk, PutNext, PutChunk, MsgOk, HistOk;
    OpOf(cfg, s, tid);
    var op := s.ops[tid];
    var p := op.put;
    var s' := PutStep(cfg, s, tid, c);
    HistOf(cfg, s);
    PutMessages(cfg, s.hist, s.corrupt, p, op.replicas);
    var chunk := PutChunk(cfg, p, op.replicas);
    var m := UpdateMsg(p.objectId, chunk);
    var s1 := Send(s, m);
    SendOk(cfg, s, m);
    PutAdvances(cfg, s.hist, p, false);
    PutAdvances(cfg, s.hist, p, p.acked && ServeUpdate(s1, p.objectId, chunk).1);
    if c.answered {
      ServeUpdateOk(cfg, s1, p.objectId, chunk);
      var s2 := ServeUpdate(s1, p.objectId, chunk).0;
      LocalMove(cfg, s, s2, s', tid, s'.ops[tid]);
    } else {
      LocalMove(cfg, s, s1, s', tid, s'.ops[tid]);
    }
  }

  lemma PutBounds(cfg: Config, h: History, p: PutState)
    requires PutOk(cfg, h, p)
    ensures p.k <= |p.plan|
  {
  }

  lemma PutSelectMoves(cfg: Config, s: State, tid: nat, c: Choice)
    requires ConfigOk(cfg) && Inv(cfg, s) && tid in s.ops && s.ops[tid].PutSelect?
    requires ClientEnabled(cfg, s, s.ops[tid], c)
    ensures Moved(cfg, s, PutStep(cfg, s, tid, c), tid)
  {
    hide PutOk, Core, Moved, Selectable, DistinctAddresses, OpsOk, FreshIds;
    OpOf(cfg, s, tid);
    PutBounds(cfg, s.hist, s.ops[tid].put);
    var s' := PutStep(cfg, s, tid, c);
    LocalMove(cfg, s, s, s', tid, s'.ops[tid]);
  }

  lemma PutAbortMoves(cfg: Config, s: State, tid: nat, c: Choice)
    requires ConfigOk(cfg) && Inv(cfg, s) && tid in s.ops && s.ops[tid].PutAbort?
    requires ClientEnabled(cfg, s, s.ops[tid], c)
    ensures Moved(cfg, s, PutStep(cfg, s, tid, c), tid)
  {
    hide Core, Moved, OpsOk, PutOk;
    var p := s.ops[tid].put;
    var s' := PutStep(cfg, s, tid, c);
    var m := DeleteByIdMsg(p.objectId);
    var s1 := Send(s, m);
    SendOk(cfg, s, m);
    ServeDeleteOk(cfg, s1, p.objectId);
    LocalMove(cfg, s, if c.answered then ServeDelete(s1, p.objectId) else s1, s', tid, Ended);
  }

  lemma PutMoves(cfg: Config, s: State, tid: nat, c: Choice)
    requires ConfigOk(cfg) && Inv(cfg, s) && tid in s.ops && IsPut(s.ops[tid])
    requires ClientEnabled(cfg, s, s.ops[tid], c)
    ensures Moved(cfg, s, PutStep(cfg, s, tid, c), tid)
  {
    hide Moved, Inv, ClientEnabled, ConfigOk;
    match s.ops[tid]
    case PutCreate(_, _) => PutCreateMoves(cfg, s, tid, c);
    case PutSelect(p) => PutSelectMoves(cfg, s, tid, c);
    case PutWrite(_, _, _, _) => PutWriteMoves(cfg, s, tid, c);
    case PutPublish(_, _) => PutPublishMoves(cfg, s, tid, c);
    case PutAbort(p) => PutAbortMoves(cfg, s, tid, c);
    case PutDone(_) => Same(cfg, s, tid);
  }

  /** The heart of a get: a chunk that the client accepts hashes to the slice it asked for, and is
      that slice on undamaged disks. */
  lemma AcceptedPiece(cfg: Config, s: State, chunk: ChunkInfo, address: Bytes)
    requires Core(cfg, s) && ChunkOk(cfg, s.hist, chunk) && chunk.replicas != []
    ensures var read := Store.Read(cfg.hash, Disk(s, address), chunk.chunkId);
            ClientAccepts(chunk, read) ==>
              && cfg.hash(read.value.1) == cfg.hash(s.hist.births[chunk.chunkId].bytes)
              && (!s.corrupt ==> read.value.1 == s.hist.births[chunk.chunkId].bytes)
  {
    hide Deserialize, MetaOk, MsgOk;
    var files := Disk(s, address);
    var read := Store.Read(cfg.hash, files, chunk.chunkId);
    if read.Some? {
      AcceptedIsCanonical(cfg.hash, files[Store.ChunkPath(chunk.chunkId)]);
      assert !s.corrupt ==> DiskOk(cfg, s, address, chunk.chunkId);
    }
  }

  lemma GetLocateMoves(cfg: Config, s: State, tid: nat, c: Choice)
    requires ConfigOk(cfg) && Inv(cfg, s) && tid in s.ops && s.ops[tid].GetLocate?
    ensures Moved(cfg, s, GetStep(cfg, s, tid, c), tid)
  {
    hide ObjOk, Moved, DisksOk, SentOk, Tables, OpsOk, HistOk, DatasOk, ConfigOk;
    var s' := GetStep(cfg, s, tid, c);
    LocalMove(cfg, s, s, s', tid, s'.ops[tid]);
  }

  lemma PieceAdded(cfg: Config, s: State, obj: ObjectInfo, r: nat, pieces: seq<Bytes>)
    requires Core(cfg, s) && PiecesOk(cfg, s.hist, s.corrupt, obj, pieces)
    requires |pieces| < |obj.chunks| && r < |obj.chunks[|pieces|].replicas|
    ensures var chunk := obj.chunks[|pieces|];
            var read := Store.Read(cfg.hash, Disk(s, chunk.replicas[r].address), chunk.chunkId);
            ClientAccepts(chunk, read) ==>
              PiecesOk(cfg, s.hist, s.corrupt, obj, pieces + [read.value.1])
  {
    hide Core, Store.Read, ObjOk, ChunkOk, ClientAccepts;
    var chunk := obj.chunks[|pieces|];
    ObjChunk(cfg, s.hist, obj, |pieces|);
    AcceptedPiece(cfg, s, chunk, chunk.replicas[r].address);
  }

  lemma ObjChunk(cfg: Config, h: History, obj: ObjectInfo, k: nat)
    requires ObjOk(cfg, h, obj) && k < |obj.chunks|
    ensures ChunkOk(cfg, h, obj.chunks[k])
    ensures obj.chunks[k].chunkId in h.births
  {
    hide Join, TotalSize, Shape;
  }

  lemma GetReadMoves(cfg: Config, s: State, tid: nat, c: Choice)
    requires ConfigOk(cfg) && Inv(cfg, s) && tid in s.ops && s.ops[tid].GetRead?
    ensures Moved(cfg, s, GetStep(cfg, s, tid, c), tid)
  {
    hide Core, Moved, Store.Read, ClientAccepts, PiecesOk, OpsOk, ConfigOk;
    var op := s.ops[tid];
    OpOf(cfg, s, tid);
    PieceBounds(cfg, s.hist, s.corrupt, op.obj, op.pieces);
    if |op.pieces| < |op.obj.chunks| && op.r < |op.obj.chunks[|op.pieces|].replicas| {
      PieceAdded(cfg, s, op.obj, op.r, op.pieces);
    }
    var s' := GetStep(cfg, s, tid, c);
    LocalMove(cfg, s, s, s', tid, s'.ops[tid]);
  }

  lemma PieceBounds(cfg: Config, h: History, corrupt: bool, obj: ObjectInfo, pieces: seq<Bytes>)
    requires PiecesOk(cfg, h, corrupt, obj, pieces)
    ensures |pieces| <= |obj.chunks|
  {
  }

  lemma GetMoves(cfg: Config, s: State, tid: nat, c: Choice)
    requires ConfigOk(cfg) && Inv(cfg, s) && tid in s.ops && IsGet(s.ops[tid])
    ensures Moved(cfg, s, GetStep(cfg, s, tid, c), tid)
  {
    hide Moved, Inv, ConfigOk, Store.Read;
    match s.ops[tid]
    case GetLocate(filename) => GetLocateMoves(cfg, s, tid, c);
    case GetRead(obj, r, pieces) => GetReadMoves(cfg, s, tid, c);
    case GetDone(_, _) => Same(cfg, s, tid);
  }

  lemma RepairMessages(cfg: Config, h: History, corrupt: bool, rs: RepairState, bytes: Bytes,
                       createdAt: nat, replicas: seq<ReplicaInfo>)
    requires ConfigOk(cfg) && HistOk(h) && RepairOk(cfg, h, corrupt, rs, bytes)
    requires createdAt < U64_LIMIT
    ensures WriteOk(cfg, h, corrupt, RepairHeader(cfg, rs.todo[0], bytes, createdAt), bytes)
    ensures var chunk := RepairChunk(rs.todo[0], replicas);
            MsgOk(cfg, h, corrupt, UpdateMsg(chunk.objectId, chunk))
  {
    assert ChunkOk(cfg, h, rs.todo[0]);
  }

  lemma FetchedPiece(cfg: Config, s: State, chunk: ChunkInfo, address: Bytes)
    requires Core(cfg, s) && ChunkOk(cfg, s.hist, chunk)
    ensures var read := Store.Read(cfg.hash, Disk(s, address), chunk.chunkId);
            read.Some? ==>
              && |read.value.1| < U64_LIMIT
              && (!s.corrupt ==> read.value.1 == s.hist.births[chunk.chunkId].bytes)
  {
    hide Deserialize, MetaOk, MsgOk;
    var files := Disk(s, address);
    if Store.Read(cfg.hash, files, chunk.chunkId).Some? {
      AcceptedIsCanonical(cfg.hash, files[Store.ChunkPath(chunk.chunkId)]);
      assert !s.corrupt ==> DiskOk(cfg, s, address, chunk.chunkId);
    }
  }

  lemma RepairFetchMoves(cfg: Config, s: State, tid: nat, c: Choice)
    requires ConfigOk(cfg) && Inv(cfg, s) && tid in s.ops && s.ops[tid].RepairFetch?
    ensures Moved(cfg, s, RepairStep(cfg, s, tid, c), tid)
  {
    hide Core, Moved, Store.Read, ChunksOk, OpsOk, ConfigOk;
    var op := s.ops[tid];
    OpOf(cfg, s, tid);
    var rs, r := op.repair, op.r;
    TailOk(cfg, s.hist, rs.todo);
    if rs.todo != [] && r < |rs.todo[0].replicas| {
      FetchedPiece(cfg, s, rs.todo[0], rs.todo[0].replicas[r].address);
    }
    var s' := RepairStep(cfg, s, tid, c);
    LocalMove(cfg, s, s, s', tid, s'.ops[tid]);
  }

  lemma TailOk(cfg: Config, h: History, todo: seq<ChunkInfo>)
    requires ChunksOk(cfg, h, todo)
    ensures todo != [] ==> ChunksOk(cfg, h, todo[1..]) && ChunkOk(cfg, h, todo[0])
    ensures todo != [] && todo[0].replicas != [] ==> todo[0].checksum != []
  {
    assert todo != [] ==> ChunkOk(cfg, h, todo[0]);
  }

  lemma RepairHead(cfg: Config, h: History, corrupt: bool, rs: RepairState, bytes: Bytes)
    requires RepairOk(cfg, h, corrupt, rs, bytes)
    ensures rs.todo != [] && ChunksOk(cfg, h, rs.todo[1..])
  {
  }

  lemma RepairWriteMoves(cfg: Config, s: State, tid: nat, c: Choice)
    requires ConfigOk(cfg) && Inv(cfg, s) && tid in s.ops && s.ops[tid].RepairWrite?
    requires c.now < U64_LIMIT
    ensures Moved(cfg, s, RepairStep(cfg, s, tid, c), tid)
  {
    hide Core, Moved, OpsOk, RepairOk, WriteOk, RepairHeader, HistOk, ChunksOk, ConfigOk;
    OpOf(cfg, s, tid);
    HistOf(cfg, s);
    var op := s.ops[tid];
    var rs, bytes := op.repair, op.bytes;
    RepairHead(cfg, s.hist, s.corrupt, rs, bytes);
    var s' := RepairStep(cfg, s, tid, c);
    if op.i >= |op.nodes| {
      LocalMove(cfg, s, s, s', tid, s'.ops[tid]);
    } else {
      var node := op.nodes[op.i];
      var at := if node.id == rs.local.id then 0 else c.now;
      var address := RepairAddress(rs.local, node);
      var h := RepairHeader(cfg, rs.todo[0], bytes, at);
      RepairMessages(cfg, s.hist, s.corrupt, rs, bytes, at, []);
      var m := WriteMsg(address, h, bytes);
      var s1 := Send(s, m);
      SendOk(cfg, s, m);
      if c.answered {
        ServeWriteOk(cfg, s1, address, h, bytes, c.now, c.wfate);
        var s2 := ServeWrite(cfg, s1, address, h, bytes, c.now, c.wfate).0;
        LocalMove(cfg, s, s2, s', tid, s'.ops[tid]);
      } else {
        LocalMove(cfg, s, s1, s', tid, s'.ops[tid]);
      }
    }
  }

  lemma RepairPublishMoves(cfg: Config, s: State, tid: nat, c: Choice)
    requires ConfigOk(cfg) && Inv(cfg, s) && tid in s.ops && s.ops[tid].RepairPublish?
    ensures Moved(cfg, s, RepairStep(cfg, s, tid, c), tid)
  {
    hide Core, Moved, OpsOk, RepairOk, RepairChunk, HistOk, ChunksOk, MsgOk, ConfigOk;
    OpOf(cfg, s, tid);
    HistOf(cfg, s);
    var op := s.ops[tid];
    var rs := op.repair;
    RepairHead(cfg, s.hist, s.corrupt, rs, op.bytes);
    var s' := RepairStep(cfg, s, tid, c);
    RepairMessages(cfg, s.hist, s.corrupt, rs, op.bytes, 0, op.replicas);
    var chunk := RepairChunk(rs.todo[0], op.replicas);
    var m := UpdateMsg(chunk.objectId, chunk);
    var s1 := Send(s, m);
    SendOk(cfg, s, m);
    if c.answered {
      ServeUpdateOk(cfg, s1, chunk.objectId, chunk);
      LocalMove(cfg, s, ServeUpdate(s1, chunk.objectId, chunk).0, s', tid, s'.ops[tid]);
    } else {
      LocalMove(cfg, s, s1, s', tid, s'.ops[tid]);
    }
  }

  lemma ScannedChunks(cfg: Config, s: State, order: seq<Bytes>)
    requires MetaOk(cfg, s)
    ensures ChunksOk(cfg, s.hist, ScanAnswer(s.meta, order, cfg.rf))
  {
    hide UnderAll, Join, TotalSize, Shape, ChunkOk;
    var chunks := ScanAnswer(s.meta, order, cfg.rf);
    forall k | 0 <= k < |chunks| ensures ChunkOk(cfg, s.hist, chunks[k]) {
      UnderAllHolds(s.meta, order, cfg.rf, chunks[k]);
      assert chunks[k] in chunks;
      var id :| id in order && chunks[k] in s.meta.objects[id].chunks;
      assert ObjOk(cfg, s.hist, s.meta.objects[id]);
    }
  }

  lemma RepairScanMoves(cfg: Config, s: State, tid: nat, c: Choice)
    requires ConfigOk(cfg) && Inv(cfg, s) && tid in s.ops && s.ops[tid].RepairScan?
    ensures Moved(cfg, s, RepairStep(cfg, s, tid, c), tid)
  {
    hide HistOk, DisksOk, SentOk, DatasOk, ChunksOk, Moved, ConfigOk, ScanAnswer, MetaOk;
    var s' := RepairStep(cfg, s, tid, c);
    ScannedChunks(cfg, s, c.order);
    LocalMove(cfg, s, s, s', tid, s'.ops[tid]);
  }

  lemma RepairSelectMoves(cfg: Config, s: State, tid: nat, c: Choice)
    requires ConfigOk(cfg) && Inv(cfg, s) && tid in s.ops && s.ops[tid].RepairSelect?
    ensures Moved(cfg, s, RepairStep(cfg, s, tid, c), tid)
  {
    var op := s.ops[tid];
    var s' := RepairStep(cfg, s, tid, c);
    assert OpOk(cfg, s.hist, s.corrupt, op);
    TailOk(cfg, s.hist, op.repair.todo);
    hide ConfigOk, Core, Moved, ChunksOk, DistinctAddresses;
    LocalMove(cfg, s, s, s', tid, s'.ops[tid]);
  }

  lemma RepairMoves(cfg: Config, s: State, tid: nat, c: Choice)
    requires ConfigOk(cfg) && Inv(cfg, s) && tid in s.ops && IsRepair(s.ops[tid])
    requires ClientEnabled(cfg, s, s.ops[tid], c)
    ensures Moved(cfg, s, RepairStep(cfg, s, tid, c), tid)
  {
    assert c.now < U64_LIMIT;
    hide Moved, Inv, ClientEnabled, ConfigOk;
    match s.ops[tid]
    case RepairScan(rs) => RepairScanMoves(cfg, s, tid, c);
    case RepairFetch(_, _) => RepairFetchMoves(cfg, s, tid, c);
    case RepairSelect(rs, bytes) => RepairSelectMoves(cfg, s, tid, c);
    case RepairWrite(_, _, _, _, _) => RepairWriteMoves(cfg, s, tid, c);
    case RepairPublish(_, _, _) => RepairPublishMoves(cfg, s, tid, c);
  }

  lemma DelLocateMoves(cfg: Config, s: State, tid: nat, c: Choice)
    requires Inv(cfg, s) && tid in s.ops && s.ops[tid].DelLocate?
    ensures Moved(cfg, s, DeleteStep(s, tid, c), tid)
  {
    hide ObjOk, Moved, DisksOk, SentOk, Tables, OpsOk, HistOk, DatasOk;
    var s' := DeleteStep(s, tid, c);
    LocalMove(cfg, s, s, s', tid, s'.ops[tid]);
  }

  lemma DelChunksMoves(cfg: Config, s: State, tid: nat, c: Choice)
    requires Inv(cfg, s) && tid in s.ops && s.ops[tid].DelChunks?
    ensures Moved(cfg, s, DeleteStep(s, tid, c), tid)
  {
    hide Core, Moved, OpsOk, ObjOk, Store.DeleteFiles;
    OpOf(cfg, s, tid);
    var op := s.ops[tid];
    var s' := DeleteStep(s, tid, c);
    var obj, k, r := op.obj, op.k, op.r;
    if k < |obj.chunks| && r < |obj.chunks[k].replicas| {
      var address, id := obj.chunks[k].replicas[r].address, obj.chunks[k].chunkId;
      var m := DeleteChunkMsg(address, id);
      var s1 := Send(s, m);
      SendOk(cfg, s, m);
      ServeDeleteChunkOk(cfg, s1, address, id, c.dfate);
      LocalMove(cfg, s, if c.answered then ServeDeleteChunk(s1, address, id, c.dfate) else s1,
                s', tid, s'.ops[tid]);
    } else {
      LocalMove(cfg, s, s, s', tid, s'.ops[tid]);
    }
  }

  lemma DelNameMoves(cfg: Config, s: State, tid: nat, c: Choice)
    requires Inv(cfg, s) && tid in s.ops && s.ops[tid].DelName?
    ensures Moved(cfg, s, DeleteStep(s, tid, c), tid)
  {
    hide Core, Moved, OpsOk;
    var filename := s.ops[tid].filename;
    var s' := DeleteStep(s, tid, c);
    var m := DeleteByNameMsg(filename);
    var s1 := Send(s, m);
    SendOk(cfg, s, m);
    if c.answered && filename in s.meta.names {
      var m2 := DeleteByIdMsg(s.meta.names[filename]);
      SendOk(cfg, s1, m2);
      LocalMove(cfg, s, Send(s1, m2), s', tid, s'.ops[tid]);
    } else {
      LocalMove(cfg, s, s1, s', tid, Ended);
    }
  }

  lemma DelFinishMoves(cfg: Config, s: State, tid: nat, c: Choice)
    requires Inv(cfg, s) && tid in s.ops && s.ops[tid].DelFinish?
    ensures Moved(cfg, s, DeleteStep(s, tid, c), tid)
  {
    hide Core, Moved, OpsOk;
    var id := s.ops[tid].objectId;
    ServeDeleteOk(cfg, s, id);
    LocalMove(cfg, s, if c.answered then ServeDelete(s, id) else s, DeleteStep(s, tid, c), tid,
              Ended);
  }

  lemma DeleteMoves(cfg: Config, s: State, tid: nat, c: Choice)
    requires Inv(cfg, s) && tid in s.ops
    requires !IsPut(s.ops[tid]) && !IsGet(s.ops[tid]) && !IsRepair(s.ops[tid])
    ensures Moved(cfg, s, DeleteStep(s, tid, c), tid)
  {
    hide Moved, Inv;
    match s.ops[tid]
    case DelLocate(filename) => DelLocateMoves(cfg, s, tid, c);
    case DelChunks(obj, k, r) => DelChunksMoves(cfg, s, tid, c);
    case DelName(filename) => DelNameMoves(cfg, s, tid, c);
    case DelFinish(id) => DelFinishMoves(cfg, s, tid, c);
    case Ended => Same(cfg, s, tid);
  }

  lemma ClientKeepsInv(cfg: Config, s: State, tid: nat, c: Choice)
    requires ConfigOk(cfg) && Inv(cfg, s)
    requires Enabled(cfg, s, Client(tid, c))
    ensures Inv(cfg, Next(cfg, s, Client(tid, c)))
    ensures Grows(s.hist, Next(cfg, s, Client(tid, c)).hist)
  {
    hide PutStep, GetStep, RepairStep, DeleteStep, ClientEnabled, Core, OpOk;
    var op := s.ops[tid];
    if IsPut(op) {
      PutMoves(cfg, s, tid, c);
    } else if IsGet(op) {
      GetMoves(cfg, s, tid, c);
    } else if IsRepair(op) {
      RepairMoves(cfg, s, tid, c);
    } else {
      DeleteMoves(cfg, s, tid, c);
    }
    OpsFrame(cfg, s, Next(cfg, s, Client(tid, c)), tid);
  }

  /** Wiping or damaging a disk keeps the core invariant (damage only in its weaker form). */
  lemma DiskFaultOk(cfg: Config, s: State, s': State, address: Bytes, files: Store.Directory)
    requires Core(cfg, s)
    requires s' == s.(disks := s.disks[address := files], lost := s'.lost,
                      corrupt := s'.corrupt)
    requires s'.corrupt || (files == map[] && !s.corrupt)
    ensures Core(cfg, s')
  {
    MetaSame(cfg, s, s');
    hide MetaOk, MsgOk, HistOk;
    forall m | m in s'.sent ensures MsgOk(cfg, s'.hist, s'.corrupt, m) {
      MsgGrows(cfg, s.hist, s'.hist, s.corrupt, s'.corrupt, m);
    }
    if !s'.corrupt {
      forall a, c ensures DiskOk(cfg, s', a, c) {
        assert DiskOk(cfg, s, a, c);
      }
    }
  }

  lemma InvParts(cfg: Config, s: State)
    requires Inv(cfg, s)
    ensures Core(cfg, s) && OpsOk(cfg, s)
  {
    hide Core, OpsOk;
  }

  lemma SentMsg(cfg: Config, s: State, m: Msg)
    requires Core(cfg, s) && m in s.sent
    ensures MsgOk(cfg, s.hist, s.corrupt, m)
    ensures m.WriteMsg? ==> WriteOk(cfg, s.hist, s.corrupt, m.header, m.payload)
  {
    hide HistOk, MetaOk, DisksOk, WriteOk, ChunkOk;
  }

  lemma DeletesAreOk(cfg: Config, s: State, id: Bytes)
    ensures MsgOk(cfg, s.hist, s.corrupt, DeleteByIdMsg(id))
  {
  }

  lemma NodesOk(cfg: Config, s: State, s': State)
    requires Core(cfg, s) && s' == s.(meta := s.meta.(nodes := s'.meta.nodes))
    ensures Core(cfg, s')
  {
    hide MsgOk, MetaOk;
    MetaSame(cfg, s, s');
    CoreFrame(cfg, s, s');
  }

  lemma ServerKeepsCore(cfg: Config, s: State, step: Step)
    requires ConfigOk(cfg) && Inv(cfg, s) && Enabled(cfg, s, step)
    requires !step.Start? && !step.Client?
    ensures Core(cfg, Next(cfg, s, step))
    ensures Grows(s.hist, Next(cfg, s, step).hist)
  {
    hide Inv, Core, MsgOk, OpsOk, FreshIds, Births, Store.WriteFiles, Store.Image,
         Store.DeleteFiles, UpdateChunk, DeleteObject, CreateObject, PutStep, GetStep, RepairStep, DeleteStep;
    InvParts(cfg, s);
    var s' := Next(cfg, s, step);
    match step
    case LateCreate(filename, data, c) => ServeCreateOk(cfg, s, filename, data, c.id, c.uuids);
    case LateWrite(address, h, payload, c) =>
      SentMsg(cfg, s, WriteMsg(address, h, payload));
      ServeWriteOk(cfg, s, address, h, payload, c.now, c.wfate);
    case LateUpdate(id, chunk) =>
      SentMsg(cfg, s, UpdateMsg(id, chunk));
      ServeUpdateOk(cfg, s, id, chunk);
    case LateLookup(filename) =>
      if filename in s.meta.names {
        DeletesAreOk(cfg, s, s.meta.names[filename]);
        SendOk(cfg, s, DeleteByIdMsg(s.meta.names[filename]));
      }
    case LateDelete(id) => ServeDeleteOk(cfg, s, id);
    case LateDeleteChunk(address, id, c) => ServeDeleteChunkOk(cfg, s, address, id, c.dfate);
    case ChangeNodes(nodes) => NodesOk(cfg, s, s');
    case Wipe(address) => DiskFaultOk(cfg, s, s', address, map[]);
    case Damage(address, files) => DiskFaultOk(cfg, s, s', address, files);
  }

  lemma StepKeepsInv(cfg: Config, s: State, step: Step)
    requires ConfigOk(cfg) && Inv(cfg, s) && Enabled(cfg, s, step)
    ensures Inv(cfg, Next(cfg, s, step))
    ensures Grows(s.hist, Next(cfg, s, step).hist)
  {
    var s' := Next(cfg, s, step);
    match step
    case Client(tid, c) => ClientKeepsInv(cfg, s, tid, c);
    case Start(tid, op) =>
      LocalMove(cfg, s, s, s', tid, op);
      OpsFrame(cfg, s, s', tid);
    case _ =>
      ServerKeepsCore(cfg, s, step);
      hide Core, OpOk;
      ServerFrame(cfg, s, s');
  }

  lemma InitInv(cfg: Config)
    ensures Inv(cfg, INIT)
  {
    hide Deserialize;
  }

  /** The invariant holds in every state of every run. */
  lemma {:induction false} RunInv(cfg: Config, steps: seq<Step>, states: seq<State>, n: nat)
    requires RunOf(cfg, steps, states) && n < |states|
    ensures Inv(cfg, states[n])
  {
    if n == 0 {
      InitInv(cfg);
    } else {
      RunInv(cfg, steps, states, n - 1);
      StepKeepsInv(cfg, states[n - 1], steps[n - 1]);
    }
  }

  // ---- Main results ----

  function Concat(pieces: seq<Bytes>): Bytes {
    if pieces == [] then [] else Concat(pieces[..|pieces| - 1]) + pieces[|pieces| - 1]
  }

  lemma {:induction false} ConcatIsJoin(h: History, chunks: seq<ChunkInfo>, pieces: seq<Bytes>)
    requires |pieces| == |chunks|
    requires forall k :: 0 <= k < |chunks| ==>
               chunks[k].chunkId in h.births && pieces[k] == h.births[chunks[k].chunkId].bytes
    ensures Concat(pieces) == Join(h, chunks)
  {
    if chunks != [] {
      ConcatIsJoin(h, chunks[..|chunks| - 1], pieces[..|pieces| - 1]);
    }
  }

  /** In every interleaved run of puts, gets, repairs and deletes, with nodes failing, disks wiped,
      files cut short, requests lost, delayed and repeated: a get that succeeds returns exactly
      the bytes that one put was given, under the file name of the object it located. */
  lemma GetReturnsWhatWasPut(cfg: Config, steps: seq<Step>, states: seq<State>, n: nat, tid: nat)
    requires RunOf(cfg, steps, states) && n < |states|
    requires tid in states[n].ops && states[n].ops[tid].GetDone? && !states[n].corrupt
    ensures var op := states[n].ops[tid];
            var (h, id) := (states[n].hist, op.obj.objectId);
            && id in h.datas && Concat(op.pieces) == h.datas[id]
            && id in h.names && op.obj.filename == h.names[id]
            && CreateMsg(op.obj.filename, Concat(op.pieces)) in states[n].sent
  {
    hide Next, Enabled;
    RunInv(cfg, steps, states, n);
    var s, op := states[n], states[n].ops[tid];
    assert OpOk(cfg, s.hist, s.corrupt, op);
    assert ChunksOk(cfg, s.hist, op.obj.chunks);
    ConcatIsJoin(s.hist, op.obj.chunks, op.pieces);
  }

  /** The object that a get or a delete goes on with carries the name it asked for, and the put
      that created it was given that name. */
  lemma LocatedUnderItsName(cfg: Config, steps: seq<Step>, states: seq<State>, n: nat,
                            filename: Bytes)
    requires RunOf(cfg, steps, states) && n < |states|
    ensures var (m, h) := (states[n].meta, states[n].hist);
            var obj := Locate(m, filename);
            obj.Some? ==>
              && filename in m.names && m.names[filename] == obj.value.objectId
              && obj.value.objectId in m.objects && m.objects[obj.value.objectId] == obj.value
              && obj.value.filename == filename
              && obj.value.objectId in h.names && h.names[obj.value.objectId] == filename
  {
    hide Next, Enabled, DisksOk, SentOk, HistOk, DatasOk, OpsOk;
    RunInv(cfg, steps, states, n);
    var obj := Locate(states[n].meta, filename);
    if obj.Some? {
      assert ObjOk(cfg, states[n].hist, obj.value);
    }
  }

  /** Even with arbitrary damage to chunk files, every piece a successful get accepted hashes to
      the checksum of the slice that was put there. */
  lemma GetPiecesHashRight(cfg: Config, steps: seq<Step>, states: seq<State>, n: nat, tid: nat)
    requires RunOf(cfg, steps, states) && n < |states|
    requires tid in states[n].ops && states[n].ops[tid].GetDone?
    ensures var op := states[n].ops[tid];
            var h := states[n].hist;
            && ObjOk(cfg, h, op.obj)
            && |op.pieces| == |op.obj.chunks|
            && (forall j :: 0 <= j < |op.pieces| ==>
                  op.obj.chunks[j].chunkId in h.births &&
                  cfg.hash(op.pieces[j]) == cfg.hash(h.births[op.obj.chunks[j].chunkId].bytes))
  {
    hide Next, Enabled;
    RunInv(cfg, steps, states, n);
    var s, op := states[n], states[n].ops[tid];
    assert OpOk(cfg, s.hist, s.corrupt, op);
    assert ChunksOk(cfg, s.hist, op.obj.chunks);
  }

  /** In every run the object tables are inverse to each other, and every object in them still has
      the plan it was created with: indices in order, sizes adding up to the object's size. */
  lemma TablesKeepPlans(cfg: Config, steps: seq<Step>, states: seq<State>, n: nat, id: Bytes)
    requires RunOf(cfg, steps, states) && n < |states|
    requires id in states[n].meta.objects
    ensures Tables(states[n].meta)
    ensures var obj := states[n].meta.objects[id];
            && obj.size == TotalSize(obj.chunks)
            && (forall k :: 0 <= k < |obj.chunks| ==>
                  obj.chunks[k].chunkIndex == k && obj.chunks[k].objectId == id)
            && |obj.chunks| == ChunkCount(obj.size, cfg.chunkSize)
            && (forall k :: 0 <= k < |obj.chunks| ==>
                  obj.chunks[k].size == PlannedSize(obj.size, cfg.chunkSize, k))
  {
    hide Next, Enabled;
    RunInv(cfg, steps, states, n);
    assert ObjOk(cfg, states[n].hist, states[n].meta.objects[id]);
  }

  /** A put that misses its quorum, once its delete is served, takes exactly its own entries out
      of the two tables. */
  lemma AbortRemovesOwnEntries(cfg: Config, steps: seq<Step>, states: seq<State>, n: nat)
    requires RunOf(cfg, steps, states) && n < |steps|
    requires steps[n].Client? && steps[n].c.answered && states[n].ops[steps[n].tid].PutAbort?
    ensures var (m, m') := (states[n].meta, states[n + 1].meta);
            var id := states[n].ops[steps[n].tid].put.objectId;
            && m'.objects == m.objects - {id}
            && m'.nodes == m.nodes
            && (forall f :: f in m'.names <==> f in m.names && m.names[f] != id)
            && (forall f :: f in m'.names ==> m'.names[f] == m.names[f])
  {
    hide Enabled, DisksOk, SentOk, HistOk, DatasOk, OpsOk, ObjOk;
    RunInv(cfg, steps, states, n);
  }

  lemma ServersReviveNothing(cfg: Config, s: State, id: Bytes)
    ensures forall a, h, x, now, fate {:trigger ServeWrite(cfg, s, a, h, x, now, fate)} ::
              ServeWrite(cfg, s, a, h, x, now, fate).0.meta == s.meta
    ensures forall o, chunk {:trigger ServeUpdate(s, o, chunk)} ::
              id in ServeUpdate(s, o, chunk).0.meta.objects ==> id in s.meta.objects
    ensures forall o {:trigger ServeDelete(s, o)} ::
              id in ServeDelete(s, o).meta.objects ==> id in s.meta.objects
  {
    hide Store.WriteFiles, Store.Image, ReplaceChunk, HasChunk;
  }

  lemma PutWriteRevivesNothing(cfg: Config, s: State, tid: nat, c: Choice, id: Bytes)
    requires tid in s.ops && (s.ops[tid].PutWrite? || s.ops[tid].PutPublish?)
    requires cfg.chunkSize > 0 && ClientEnabled(cfg, s, s.ops[tid], c)
    requires id in PutStep(cfg, s, tid, c).meta.objects
    ensures id in s.meta.objects
  {
    hide ServeWrite, ServeUpdate, ClientEnabled, PutHeader, PutBytes, PutChunk, Required;
    var p := s.ops[tid].put;
    if p.k < |p.plan| {
      if s.ops[tid].PutPublish? {
        var chunk := PutChunk(cfg, p, s.ops[tid].replicas);
        ServersReviveNothing(cfg, Send(s, UpdateMsg(p.objectId, chunk)), id);
      } else if s.ops[tid].i < |s.ops[tid].nodes| {
        var address := s.ops[tid].nodes[s.ops[tid].i].address;
        ServersReviveNothing(cfg, Send(s, WriteMsg(address, PutHeader(cfg, p), PutBytes(p))), id);
      }
    }
  }

  lemma PutRevivesNothing(cfg: Config, s: State, tid: nat, c: Choice, id: Bytes)
    requires cfg.chunkSize > 0 && tid in s.ops && ClientEnabled(cfg, s, s.ops[tid], c)
    requires !s.ops[tid].PutCreate? && id in PutStep(cfg, s, tid, c).meta.objects
    ensures id in s.meta.objects
  {
    if s.ops[tid].PutWrite? || s.ops[tid].PutPublish? {
      hide PutStep, ClientEnabled;
      PutWriteRevivesNothing(cfg, s, tid, c, id);
    } else {
      hide ClientEnabled, DistinctAddresses, ServeWrite, ServeUpdate, ServeCreate, PutHeader,
           PutBytes, PutChunk;
    }
  }

  lemma PutCreateRevivesNothing(cfg: Config, s: State, tid: nat, c: Choice, id: Bytes)
    requires cfg.chunkSize > 0 && tid in s.ops && ClientEnabled(cfg, s, s.ops[tid], c)
    requires s.ops[tid].PutCreate? && id in s.hist.datas
    requires id in PutStep(cfg, s, tid, c).meta.objects
    ensures id in s.meta.objects
  {
    hide Births, Plan;
  }

  lemma RepairRevivesNothing(cfg: Config, s: State, tid: nat, c: Choice, id: Bytes)
    requires tid in s.ops
    ensures id in RepairStep(cfg, s, tid, c).meta.objects ==> id in s.meta.objects
  {
    hide ServeWrite, ServeUpdate, RepairHeader, RepairChunk, DistinctAddresses, Store.Read;
    match s.ops[tid]
    case RepairWrite(rs, bytes, nodes, i, _) =>
      if rs.todo != [] && i < |nodes| {
        var chunk, address := rs.todo[0], RepairAddress(rs.local, nodes[i]);
        var h := RepairHeader(cfg, chunk, bytes, if nodes[i].id == rs.local.id then 0 else c.now);
        ServersReviveNothing(cfg, Send(s, WriteMsg(address, h, bytes)), id);
      }
    case RepairPublish(rs, bytes, replicas) =>
      if rs.todo != [] {
        var chunk := RepairChunk(rs.todo[0], replicas);
        ServersReviveNothing(cfg, Send(s, UpdateMsg(chunk.objectId, chunk)), id);
      }
    case _ =>
  }

  lemma OthersReviveNothing(cfg: Config, s: State, tid: nat, c: Choice, id: Bytes)
    requires tid in s.ops
    ensures id in GetStep(cfg, s, tid, c).meta.objects ==> id in s.meta.objects
    ensures id in DeleteStep(s, tid, c).meta.objects ==> id in s.meta.objects
  {
    hide Store.Read, Store.DeleteFiles, ClientAccepts, Locate;
  }

  /** One step brings no object back: an id of the history that is in the table after the step was
      in it before. */
  lemma StepRevivesNothing(cfg: Config, s: State, step: Step, id: Bytes)
    requires cfg.chunkSize > 0 && Enabled(cfg, s, step) && id in s.hist.datas
    requires id in Next(cfg, s, step).meta.objects
    ensures id in s.meta.objects
  {
    hide Births, Store.WriteFiles, Store.Image, Store.DeleteFiles, ReplaceChunk, HasChunk, Plan,
         PutStep, GetStep, RepairStep, DeleteStep, ClientEnabled, Initial;
    if step.Client? {
      OthersReviveNothing(cfg, s, step.tid, step.c, id);
      RepairRevivesNothing(cfg, s, step.tid, step.c, id);
      if s.ops[step.tid].PutCreate? {
        PutCreateRevivesNothing(cfg, s, step.tid, step.c, id);
      } else if IsPut(s.ops[step.tid]) {
        PutRevivesNothing(cfg, s, step.tid, step.c, id);
      }
    }
  }

  /** A deleted object id never returns, whatever repair, put or delayed request is still under
      way. */
  lemma {:induction false} DeletedNeverReturns(cfg: Config, steps: seq<Step>, states: seq<State>,
                                               n: nat, m: nat, id: Bytes)
    requires RunOf(cfg, steps, states) && n <= m < |states|
    requires id in states[n].hist.datas && id !in states[n].meta.objects
    ensures id in states[m].hist.datas && id !in states[m].meta.objects
  {
    hide Next, Enabled, Inv;
    if n < m {
      DeletedNeverReturns(cfg, steps, states, n, m - 1, id);
      RunInv(cfg, steps, states, m - 1);
      StepKeepsInv(cfg, states[m - 1], steps[m - 1]);
      if id in states[m].meta.objects {
        StepRevivesNothing(cfg, states[m - 1], steps[m - 1], id);
      }
    }
  }
}
