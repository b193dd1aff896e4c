/** The storage client (src/client/storage_client.cpp). Its loops run against the shared cluster
    state: around every request all other processes may act. Each method follows the program
    points of the step system, so everything proved of runs holds of its results. */
module Client {
  import opened Bytes
  import opened Types
  import opened ChunkFormat
  import opened MetadataStore
  import opened Selection
  import opened Protocol
  import opened Network
  import opened Integrity
  import opened IntegrityRuns

  /** The object was created by a put that was given this file name. */
  ghost predicate PutUnder(s: State, id: Bytes, filename: Bytes) {
    id in s.hist.datas && id in s.hist.names && s.hist.names[id] == filename
  }

  // ---- get ----

  /** The object is the one that the name stands for in the state that served the request. */
  method LocateObject(w: World, tid: nat, filename: Bytes)
    returns (obj: Option<ObjectInfo>, ghost at: nat)
    requires w.Valid() && tid in w.s.ops && w.s.ops[tid] == GetLocate(filename)
    modifies w
    ensures w.Valid() && w.Continues() && tid in w.s.ops && w.During(at)
    ensures w.s.ops[tid] == if obj.Some? then GetRead(obj.value, 0, []) else Ended
    ensures obj.Some? ==> Locate(w.states[at].meta, filename) == obj &&
                          obj.value.filename == filename
  {
    hide ClientEnabled, Locate, RunOf, Unanswered, Updates;
    var s, c := w.Call(tid);
    at := |w.states| - 2;
    obj := if c.answered then Locate(s.meta, filename) else None;
    LocatedIn(w.cfg, w.steps, w.states, filename);
  }

  method ReadChunk(w: World, tid: nat, address: Bytes, chunkId: Bytes)
    returns (response: Option<(Header, Bytes)>)
    requires w.Valid() && tid in w.s.ops && w.s.ops[tid].GetRead?
    requires var op := w.s.ops[tid];
             && |op.pieces| < |op.obj.chunks|
             && var chunk := op.obj.chunks[|op.pieces|];
                op.r < |chunk.replicas| && address == chunk.replicas[op.r].address &&
                chunkId == chunk.chunkId
    modifies w
    ensures w.Valid() && w.Continues() && tid in w.s.ops
    ensures var op := old(w.s.ops[tid]);
            w.s.ops[tid] == if ClientAccepts(op.obj.chunks[|op.pieces|], response)
                            then GetRead(op.obj, 0, op.pieces + [response.value.1])
                            else GetRead(op.obj, op.r + 1, op.pieces)
  {
    hide Unanswered, Updates, RunOf, Store.Read, ClientEnabled;
    var at, c := w.Call(tid);
    response := if c.answered then Store.Read(w.cfg.hash, Disk(at, address), chunkId) else None;
  }

  /** Tries the replicas in order; a read error or a wrong checksum moves on to the next. */
  method ReadChunkFromReplicas(w: World, tid: nat, chunk: ChunkInfo, ghost obj: ObjectInfo,
                               ghost pieces: seq<Bytes>)
    returns (data: Option<Bytes>)
    requires w.Valid() && tid in w.s.ops && w.s.ops[tid] == GetRead(obj, 0, pieces)
    requires |pieces| < |obj.chunks| && chunk == obj.chunks[|pieces|]
    modifies w
    ensures w.Valid() && w.Continues() && tid in w.s.ops
    ensures w.s.ops[tid] == if data.Some? then GetRead(obj, 0, pieces + [data.value])
                            else GetRead(obj, |chunk.replicas|, pieces)
  {
    hide Unanswered, Updates, RunOf;
    for r := 0 to |chunk.replicas|
      invariant w.Valid() && w.Continues() && tid in w.s.ops
      invariant w.s.ops[tid] == GetRead(obj, r, pieces)
    {
      var response := ReadChunk(w, tid, chunk.replicas[r].address, chunk.chunkId);
      if response.Some? {
        if chunk.checksum != [] && response.value.0.checksum != chunk.checksum {
          continue;
        }
        return Some(response.value.1);
      }
    }
    return None;
  }

  /** Whatever the other processes, the network and the disks do meanwhile (short of arbitrary
      damage), a successful get returns the bytes of a put that was given this very file name. */
  method Get(w: World, tid: nat, filename: Bytes) returns (success: bool, data: Bytes)
    requires w.Valid() && tid !in w.s.ops
    modifies w
    ensures w.Valid() && w.Continues() && tid in w.s.ops
    ensures if success then w.s.ops[tid].GetDone? else w.s.ops[tid] == Ended
    ensures success ==>
              var op := w.s.ops[tid];
              && op.obj.filename == filename
              && data == Concat(op.pieces) && |op.pieces| == |op.obj.chunks|
              && PutUnder(w.s, op.obj.objectId, filename)
              && (!w.s.corrupt ==>
                    && data == w.s.hist.datas[op.obj.objectId]
                    && CreateMsg(filename, data) in w.s.sent)
  {
    hide Unanswered, Updates, RunOf, Concat, PutUnder, Locate;
    w.Begin(tid, GetLocate(filename));
    var found, _ := LocateObject(w, tid, filename);
    if found.None? {
      return false, [];
    }
    ghost var pieces;
    success, data, pieces := ReadChunks(w, tid, found.value);
    if success {
      FinishGet(w, tid, found.value, pieces);
    }
  }

  /** The loop over the chunks, which appends what each read returns. */
  method ReadChunks(w: World, tid: nat, obj: ObjectInfo)
    returns (success: bool, data: Bytes, ghost pieces: seq<Bytes>)
    requires w.Valid() && tid in w.s.ops && w.s.ops[tid] == GetRead(obj, 0, [])
    modifies w
    ensures w.Valid() && w.Continues() && tid in w.s.ops
    ensures w.s.ops[tid] == if success then GetRead(obj, 0, pieces) else Ended
    ensures success ==> |pieces| == |obj.chunks| && data == Concat(pieces)
  {
    hide Unanswered, Updates, RunOf, Concat;
    data, pieces := [], [];
    ConcatAppend([], []);
    for i := 0 to |obj.chunks|
      invariant w.Valid() && w.Continues() && tid in w.s.ops
      invariant w.s.ops[tid] == GetRead(obj, 0, pieces) && |pieces| == i
      invariant data == Concat(pieces)
    {
      var piece := ReadChunkFromReplicas(w, tid, obj.chunks[i], obj, pieces);
      if piece.None? {
        GiveUp(w, tid, obj, pieces);
        return false, data, pieces;
      }
      data := data + piece.value;
      ConcatAppend(pieces, piece.value);
      pieces := pieces + [piece.value];
    }
    success := true;
  }

  method GiveUp(w: World, tid: nat, ghost obj: ObjectInfo, ghost pieces: seq<Bytes>)
    requires w.Valid() && tid in w.s.ops && |pieces| < |obj.chunks|
    requires w.s.ops[tid] == GetRead(obj, |obj.chunks[|pieces|].replicas|, pieces)
    modifies w
    ensures w.Valid() && w.Continues() && tid in w.s.ops && w.s.ops[tid] == Ended
  {
    hide Unanswered, Updates, RunOf, ClientEnabled;
    var at, c := w.Call(tid);
  }

  method FinishGet(w: World, tid: nat, ghost obj: ObjectInfo, ghost pieces: seq<Bytes>)
    requires w.Valid() && tid in w.s.ops && w.s.ops[tid] == GetRead(obj, 0, pieces)
    requires |pieces| == |obj.chunks|
    modifies w
    ensures w.Valid() && w.Continues() && tid in w.s.ops && w.s.ops[tid] == GetDone(obj, pieces)
    ensures PutUnder(w.s, obj.objectId, obj.filename)
    ensures !w.s.corrupt ==>
              && Concat(pieces) == w.s.hist.datas[obj.objectId]
              && CreateMsg(obj.filename, Concat(pieces)) in w.s.sent
  {
    hide ClientEnabled, Concat;
    var at, c := w.Call(tid);
    GetResult(w.cfg, w.steps, w.states, tid);
  }

  lemma ConcatAppend(pieces: seq<Bytes>, piece: Bytes)
    ensures Concat(pieces + [piece]) == Concat(pieces) + piece
    ensures Concat([]) == []
  {
    assert (pieces + [piece])[..|pieces|] == pieces;
  }

  lemma GetResult(cfg: Config, steps: seq<Step>, states: seq<State>, tid: nat)
    requires RunOf(cfg, steps, states)
    requires tid in states[|steps|].ops && states[|steps|].ops[tid].GetDone?
    ensures var s := states[|steps|];
            var op := s.ops[tid];
            && PutUnder(s, op.obj.objectId, op.obj.filename)
            && (!s.corrupt ==>
                  && Concat(op.pieces) == s.hist.datas[op.obj.objectId]
                  && CreateMsg(op.obj.filename, Concat(op.pieces)) in s.sent)
  {
    hide Next, Enabled, Concat, ObjOk;
    GetPiecesHashRight(cfg, steps, states, |steps|, tid);
    DataOf(cfg, states[|steps|].hist, states[|steps|].ops[tid].obj);
    if !states[|steps|].corrupt {
      GetReturnsWhatWasPut(cfg, steps, states, |steps|, tid);
    }
  }

  lemma DataOf(cfg: Config, h: History, obj: ObjectInfo)
    requires ObjOk(cfg, h, obj)
    ensures obj.objectId in h.datas
    ensures obj.objectId in h.names && h.names[obj.objectId] == obj.filename
  {
  }

  // ---- put ----

  /** Nothing comes back only if the request was not answered or the name was taken. */
  method CreateObject(w: World, tid: nat, filename: Bytes, ghost data: Bytes)
    returns (obj: Option<ObjectInfo>, ghost at: nat)
    requires w.Valid() && tid in w.s.ops && w.s.ops[tid] == PutCreate(filename, data)
    modifies w
    ensures w.Valid() && w.Continues() && tid in w.s.ops
    ensures w.s.ops[tid] ==
            if obj.None? then Ended
            else PutSelect(PutState(obj.value.objectId, filename, data, obj.value.chunks, 0, 0, true))
    ensures w.During(at)
    ensures obj.None? ==> Unanswered(w.steps, old(|w.steps|), tid) ||
                          filename in w.states[at].meta.names
  {
    hide Unanswered, Updates, RunOf, FreshIds, Births;
    var s, c := w.Call(tid);
    at := |w.states| - 2;
    if !c.answered {
      return None, at;
    }
    var bytes := s.ops[tid].data;
    FreshAfterSend(w.cfg, s, CreateMsg(filename, bytes), bytes, c);
    obj := ServeCreate(w.cfg, Send(s, CreateMsg(filename, bytes)), filename, bytes, c.id,
                       c.uuids).1;
  }

  /** The nodes come from the table of the state that served the request. Without an answer the
      put ends and leaves the tables, and so its object, as they are. */
  method SelectNodes(w: World, tid: nat, ghost p: PutState)
    returns (nodes: Option<seq<NodeInfo>>, ghost at: nat)
    requires w.Valid() && tid in w.s.ops && w.s.ops[tid] == PutSelect(p) && p.k < |p.plan|
    modifies w
    ensures w.Valid() && w.Continues() && tid in w.s.ops && w.During(at)
    ensures w.s.ops[tid] == if nodes.None? then Ended else PutWrite(p, nodes.value, 0, [])
    ensures nodes.Some? ==>
              Selectable(w.states[at].meta.nodes, w.cfg.strategy, w.cfg.rf, nodes.value)
    ensures nodes.None? ==> Unanswered(w.steps, old(|w.steps|), tid)
    ensures w.s.meta == w.states[at].meta
  {
    hide Unanswered, Updates, RunOf, DistinctAddresses, Selectable;
    var s, c := w.Call(tid);
    at := |w.states| - 2;
    nodes := if c.answered then Some(c.nodes) else None;
  }

  method WriteChunkToNode(w: World, tid: nat, address: Bytes, chunk: ChunkInfo, data: Bytes,
                          objectId: Bytes, ghost op: Op)
    returns (ok: bool)
    requires w.Valid() && tid in w.s.ops && w.s.ops[tid] == op && op.PutWrite?
    requires op.put.k < |op.put.plan| && op.i < |op.nodes| && address == op.nodes[op.i].address
    requires data == PutBytes(op.put)
    requires PutHeader(w.cfg, op.put) ==
             Header(chunk.chunkId, objectId, chunk.version, |data|, w.cfg.hash(data), 0)
    modifies w
    ensures w.Valid() && w.Continues() && tid in w.s.ops
    ensures w.s.ops[tid] ==
            PutWrite(op.put, op.nodes, op.i + 1,
                     if ok then AddReplica(op.replicas, op.nodes[op.i], 1) else op.replicas)
  {
    hide Unanswered, Updates, RunOf, ClientEnabled, ServeWrite, PutHeader, PutBytes;
    var h := Header(chunk.chunkId, objectId, chunk.version, |data|, w.cfg.hash(data), 0);
    var at, c := w.Call(tid);
    ok := c.answered &&
          ServeWrite(w.cfg, Send(at, WriteMsg(address, h, data)), address, h, data, c.now,
                     c.wfate).1;
    ServersKeepOps(w.cfg, Send(at, WriteMsg(address, h, data)), address, h, data, c.now, c.wfate,
                   [], chunk);
  }

  method UpdateChunk(w: World, tid: nat, id: Bytes, chunk: ChunkInfo, ghost p: PutState,
                     ghost replicas: seq<ReplicaInfo>)
    returns (ok: bool)
    requires w.Valid() && tid in w.s.ops && w.s.ops[tid] == PutPublish(p, replicas)
    requires p.k < |p.plan| && id == p.objectId && chunk == PutChunk(w.cfg, p, replicas)
    modifies w
    ensures w.Valid() && w.Continues() && tid in w.s.ops
    ensures w.s.ops[tid] == PutSelect(PutNext(p, p.acked && ok))
    ensures UpdateMsg(id, chunk) in w.s.sent
  {
    hide Unanswered, Updates, RunOf, ClientEnabled, ServeUpdate, PutChunk;
    var at, c := w.Call(tid);
    ok := c.answered && ServeUpdate(Send(at, UpdateMsg(id, chunk)), id, chunk).1;
    ServersKeepOps(w.cfg, Send(at, UpdateMsg(id, chunk)), [], Header([], [], 0, 0, [], 0), [], 0,
                   Store.OpenFailed, id, chunk);
  }

  /** The slice of the current chunk lies within the data. */
  lemma SliceInBounds(cfg: Config, steps: seq<Step>, states: seq<State>, tid: nat, p: PutState)
    requires RunOf(cfg, steps, states)
    requires tid in states[|steps|].ops && states[|steps|].ops[tid] == PutSelect(p)
    requires p.k < |p.plan|
    ensures p.offset + p.plan[p.k].size <= |p.data|
    ensures PutBytes(p) == p.data[p.offset..p.offset + p.plan[p.k].size]
  {
    hide Next, Enabled, Core, Shape, TotalSize;
    RunInv(cfg, steps, states, |steps|);
    OpOf(cfg, states[|steps|], tid);
    PutSlice(cfg, states[|steps|].hist, p);
    PutFits(cfg, states[|steps|].hist, p);
  }

  lemma PutFits(cfg: Config, h: History, p: PutState)
    requires PutOk(cfg, h, p) && p.k < |p.plan|
    ensures p.offset + p.plan[p.k].size <= |p.data|
  {
    PutSlice(cfg, h, p);
  }

  /** One chunk of a put: write it to the selected nodes. The replica list holds exactly the nodes
      that acknowledged, in order, the first of them as the primary. */
  method WriteToNodes(w: World, tid: nat, chunk: ChunkInfo, data: Bytes, objectId: Bytes,
                      nodes: seq<NodeInfo>, ghost p: PutState)
    returns (replicas: seq<ReplicaInfo>, successCount: nat, ghost acks: seq<bool>)
    requires w.Valid() && tid in w.s.ops && w.s.ops[tid] == PutWrite(p, nodes, 0, [])
    requires p.k < |p.plan| && data == PutBytes(p)
    requires PutHeader(w.cfg, p) ==
             Header(chunk.chunkId, objectId, chunk.version, |data|, w.cfg.hash(data), 0)
    modifies w
    ensures w.Valid() && w.Continues() && tid in w.s.ops
    ensures w.s.ops[tid] == PutWrite(p, nodes, |nodes|, replicas) && successCount == |replicas|
    ensures |acks| == |nodes| && replicas == Entries(nodes, acks, 1)
  {
    hide Unanswered, Updates, RunOf, PutHeader, PutBytes;
    replicas, successCount, acks := [], 0, [];
    var primarySet := false;
    for i := 0 to |nodes|
      invariant w.Valid() && w.Continues() && tid in w.s.ops
      invariant w.s.ops[tid] == PutWrite(p, nodes, i, replicas)
      invariant successCount == |replicas| && (primarySet <==> replicas != [])
      invariant |acks| == i && replicas == Entries(nodes, acks, 1)
    {
      var ok := WriteChunkToNode(w, tid, nodes[i].address, chunk, data, objectId, w.s.ops[tid]);
      if ok {
        successCount := successCount + 1;
        replicas := replicas + [ReplicaInfo(nodes[i].id, nodes[i].address, !primarySet, 1)];
        primarySet := true;
      }
      assert (acks + [ok])[..i] == acks;
      acks := acks + [ok];
    }
  }

  /** The step after the last write: enough acknowledgements, or not. */
  method CheckQuorum(w: World, tid: nat, successCount: nat, ghost p: PutState,
                     ghost nodes: seq<NodeInfo>, ghost replicas: seq<ReplicaInfo>)
    returns (enough: bool)
    requires w.Valid() && tid in w.s.ops && w.s.ops[tid] == PutWrite(p, nodes, |nodes|, replicas)
    requires p.k < |p.plan| && successCount == |replicas|
    modifies w
    ensures w.Valid() && w.Continues() && tid in w.s.ops
    ensures enough <==> |replicas| >= Required(w.cfg.rf, w.cfg.policy)
    ensures enough <==> |replicas| >= if w.cfg.policy.All? then w.cfg.rf else w.cfg.rf / 2 + 1
    ensures w.s.ops[tid] == if enough then PutPublish(p, replicas) else PutAbort(p)
  {
    hide Unanswered, Updates, RunOf, ClientEnabled;
    var required := if w.cfg.policy.All? then w.cfg.rf else w.cfg.rf / 2 + 1;
    enough := successCount >= required;
    var at, c := w.Call(tid);
  }

  /** All writes of a chunk have been tried, and too few were acknowledged. */
  ghost predicate Short(cfg: Config, s: State, tid: nat) {
    tid in s.ops && s.ops[tid].PutWrite? && s.ops[tid].i >= |s.ops[tid].nodes| &&
    |s.ops[tid].replicas| < if cfg.policy.All? then cfg.rf else cfg.rf / 2 + 1
  }

  ghost predicate TooFew(cfg: Config, states: seq<State>, from: nat, tid: nat) {
    exists k :: from <= k < |states| && Short(cfg, states[k], tid)
  }

  lemma TooFewOn(cfg: Config, states: seq<State>, states': seq<State>, from: nat, later: nat, tid: nat)
    requires states <= states' && from <= later && TooFew(cfg, states, later, tid)
    ensures TooFew(cfg, states', from, tid)
  {
    hide Short;
    var k :| later <= k < |states| && Short(cfg, states[k], tid);
    assert states'[k] == states[k];
  }

  lemma ShortList(cfg: Config, s: State, tid: nat)
    requires tid in s.ops && s.ops[tid].PutWrite? && s.ops[tid].i >= |s.ops[tid].nodes|
    requires |s.ops[tid].replicas| < if cfg.policy.All? then cfg.rf else cfg.rf / 2 + 1
    ensures Short(cfg, s, tid)
  {
  }

  datatype Outcome = NoNodes | NoQuorum | Updated(acknowledged: bool)

  /** The body of the loop over the plan: select, write, check the quorum, publish. */
  method PutOneChunk(w: World, tid: nat, planned: ChunkInfo, data: Bytes, offset: nat,
                     objectId: Bytes, ghost p: PutState)
    returns (outcome: Outcome)
    requires w.Valid() && tid in w.s.ops && w.s.ops[tid] == PutSelect(p) && p.k < |p.plan|
    requires planned == p.plan[p.k]
    requires data == p.data && offset == p.offset && objectId == p.objectId
    modifies w
    ensures w.Valid() && w.Continues() && tid in w.s.ops
    ensures w.s.ops[tid] == if outcome.Updated? then PutSelect(PutNext(p, p.acked && outcome.acknowledged))
                            else Ended
    ensures outcome.NoQuorum? ==> DeleteByIdMsg(objectId) in w.s.sent
    ensures outcome.NoNodes? ==> Unanswered(w.steps, old(|w.steps|), tid)
    ensures outcome.NoQuorum? ==> TooFew(w.cfg, w.states, old(|w.states|), tid)
  {
    hide Unanswered, Updates, RunOf, PutHeader, PutBytes, PutChunk, PutNext;
    SliceInBounds(w.cfg, w.steps, w.states, tid, p);
    PutRecords(w.cfg, p);
    var chunkData := [];
    if planned.size > 0 {
      chunkData := data[offset..offset + planned.size];
    }
    var chunk := ChunkInfo(planned.chunkId, objectId, planned.chunkIndex, planned.size,
                           w.cfg.hash(chunkData), 1, []);
    outcome := StoreChunk(w, tid, chunk, chunkData, objectId, p);
  }

  method StoreChunk(w: World, tid: nat, chunk: ChunkInfo, chunkData: Bytes, objectId: Bytes,
                    ghost p: PutState)
    returns (outcome: Outcome)
    requires w.Valid() && tid in w.s.ops && w.s.ops[tid] == PutSelect(p) && p.k < |p.plan|
    requires objectId == p.objectId && chunkData == PutBytes(p)
    requires PutHeader(w.cfg, p) ==
             Header(chunk.chunkId, objectId, chunk.version, |chunkData|, w.cfg.hash(chunkData), 0)
    requires forall replicas :: PutChunk(w.cfg, p, replicas) == chunk.(replicas := replicas)
    modifies w
    ensures w.Valid() && w.Continues() && tid in w.s.ops
    ensures w.s.ops[tid] ==
            if outcome.Updated? then PutSelect(PutNext(p, p.acked && outcome.acknowledged))
            else Ended
    ensures outcome.NoQuorum? ==> DeleteByIdMsg(objectId) in w.s.sent
    ensures outcome.NoNodes? ==> Unanswered(w.steps, old(|w.steps|), tid)
    ensures outcome.NoQuorum? ==> TooFew(w.cfg, w.states, old(|w.states|), tid)
  {
    hide Unanswered, Updates, RunOf, PutHeader, PutBytes, PutChunk, PutNext, Selectable, Entries,
         TooFew;
    ghost var from := |w.states|;
    var nodes, _ := SelectNodes(w, tid, p);
    if nodes.None? {
      return NoNodes;
    }
    var replicas, successCount, _ :=
      WriteToNodes(w, tid, chunk, chunkData, objectId, nodes.value, p);
    ghost var at := |w.states| - 1;
    outcome := PublishChunk(w, tid, chunk.(replicas := replicas), successCount, objectId, p,
                            nodes.value);
    if outcome.NoQuorum? {
      TooFewOn(w.cfg, w.states, w.states, from, at, tid);
    }
  }

  /** After the writes: the update if the quorum is reached, or the end. */
  method PublishChunk(w: World, tid: nat, chunk: ChunkInfo, successCount: nat, objectId: Bytes,
                      ghost p: PutState, ghost nodes: seq<NodeInfo>)
    returns (outcome: Outcome)
    requires w.Valid() && tid in w.s.ops && p.k < |p.plan|
    requires w.s.ops[tid] == PutWrite(p, nodes, |nodes|, chunk.replicas)
    requires successCount == |chunk.replicas| && objectId == p.objectId
    requires chunk == PutChunk(w.cfg, p, chunk.replicas)
    modifies w
    ensures w.Valid() && w.Continues() && tid in w.s.ops && !outcome.NoNodes?
    ensures w.s.ops[tid] ==
            if outcome.Updated? then PutSelect(PutNext(p, p.acked && outcome.acknowledged))
            else Ended
    ensures outcome.NoQuorum? ==> DeleteByIdMsg(objectId) in w.s.sent
    ensures outcome.NoQuorum? ==> TooFew(w.cfg, w.states, old(|w.states|) - 1, tid)
  {
    hide Unanswered, Updates, RunOf, PutChunk, PutNext, Required, Short;
    ghost var at, before := |w.states| - 1, w.s;
    var enough := CheckQuorum(w, tid, successCount, p, nodes, chunk.replicas);
    if !enough {
      ShortList(w.cfg, before, tid);
      AbortPut(w, tid, p);
      assert w.states[at] == before;
      return NoQuorum;
    }
    var ok := UpdateChunk(w, tid, objectId, chunk, p, chunk.replicas);
    return Updated(ok);
  }

  /** The reply to UpdateChunk is looked at by nobody: `acked` in the final program point records
      whether all of them were positive. A put that reports success has walked through the whole
      plan, and the store remembers exactly this name and data for the new object. One that fails
      leaves no operation behind; it fails only if some request was not answered, some chunk was
      acknowledged by too few nodes, or the name was taken in a state of this call. */
  method Put(w: World, tid: nat, filename: Bytes, data: Bytes)
    returns (success: bool, objectId: Bytes, ghost at: nat)
    requires w.Valid() && tid !in w.s.ops && |data| < U64_LIMIT
    modifies w
    ensures w.Valid() && w.Continues() && tid in w.s.ops
    ensures !success ==> w.s.ops[tid] == Ended
    ensures !success ==>
              || Unanswered(w.steps, old(|w.steps|), tid)
              || TooFew(w.cfg, w.states, old(|w.states|), tid)
              || (w.During(at) && filename in w.states[at].meta.names)
    ensures success ==>
              && w.s.ops[tid].PutDone?
              && w.s.ops[tid].put.objectId == objectId && w.s.ops[tid].put.data == data
              && PutUnder(w.s, objectId, filename) && w.s.hist.datas[objectId] == data
              && CreateMsg(filename, data) in w.s.sent
  {
    hide Unanswered, Updates, RunOf, TooFew, PutUnder, Quiet;
    ghost var from, first := |w.steps|, |w.states|;
    success, objectId := false, [];
    w.Begin(tid, PutCreate(filename, data));
    ghost var steps := w.steps;
    var obj;
    obj, at := CreateObject(w, tid, filename, data);
    UnansweredOn(steps, w.steps, from, tid);
    if obj.None? {
      return;
    }
    objectId := obj.value.objectId;
    var plan := obj.value.chunks;
    var offset: nat := 0;
    ghost var p := PutState(objectId, filename, data, plan, 0, 0, true);
    for k := 0 to |plan|
      invariant w.Valid() && w.Continues() && tid in w.s.ops
      invariant w.s.ops[tid] == PutSelect(p)
      invariant p == PutState(objectId, filename, data, plan, k, offset, p.acked)
    {
      ghost var before, states := w.steps, w.states;
      var outcome := PutOneChunk(w, tid, plan[k], data, offset, objectId, p);
      UnansweredOn(before, w.steps, from, tid);
      if !outcome.Updated? {
        if outcome.NoQuorum? {
          TooFewOn(w.cfg, w.states, w.states, first, |states|, tid);
        }
        return;
      }
      offset := offset + plan[k].size;
      p := PutNext(p, p.acked && outcome.acknowledged);
    }
    FinishPut(w, tid, p);
    success := true;
  }

  /** The records that a put builds from the plan. */
  lemma PutRecords(cfg: Config, p: PutState)
    requires p.k < |p.plan|
    ensures PutHeader(cfg, p) == Header(p.plan[p.k].chunkId, p.objectId, 1, |PutBytes(p)|,
                                        cfg.hash(PutBytes(p)), 0)
    ensures forall replicas :: PutChunk(cfg, p, replicas) ==
              ChunkInfo(p.plan[p.k].chunkId, p.objectId, p.plan[p.k].chunkIndex, p.plan[p.k].size,
                        cfg.hash(PutBytes(p)), 1, replicas)
  {
  }

  method AbortPut(w: World, tid: nat, ghost p: PutState)
    requires w.Valid() && tid in w.s.ops && w.s.ops[tid] == PutAbort(p)
    modifies w
    ensures w.Valid() && w.Continues() && tid in w.s.ops && w.s.ops[tid] == Ended
    ensures DeleteByIdMsg(p.objectId) in w.s.sent
  {
    hide Unanswered, Updates, RunOf, ClientEnabled, DeleteObject;
    var at, c := w.Call(tid);
  }

  method FinishPut(w: World, tid: nat, ghost p: PutState)
    requires w.Valid() && tid in w.s.ops && w.s.ops[tid] == PutSelect(p) && p.k >= |p.plan|
    modifies w
    ensures w.Valid() && w.Continues() && tid in w.s.ops && w.s.ops[tid] == PutDone(p)
    ensures PutUnder(w.s, p.objectId, p.filename) && w.s.hist.datas[p.objectId] == p.data
    ensures CreateMsg(p.filename, p.data) in w.s.sent
  {
    hide ClientEnabled;
    var at, c := w.Call(tid);
    PutResult(w.cfg, w.steps, w.states, tid);
  }

  lemma PutResult(cfg: Config, steps: seq<Step>, states: seq<State>, tid: nat)
    requires RunOf(cfg, steps, states)
    requires tid in states[|steps|].ops && states[|steps|].ops[tid].PutDone?
    ensures var s := states[|steps|];
            var p := s.ops[tid].put;
            && PutUnder(s, p.objectId, p.filename) && s.hist.datas[p.objectId] == p.data
            && CreateMsg(p.filename, p.data) in s.sent
  {
    hide Next, Enabled, MetaOk, SentOk, DisksOk, HistOk, Shape, TotalSize;
    RunInv(cfg, steps, states, |steps|);
    OpOf(cfg, states[|steps|], tid);
  }

  // ---- delete ----

  method LocateForDelete(w: World, tid: nat, filename: Bytes)
    returns (obj: Option<ObjectInfo>, ghost at: nat)
    requires w.Valid() && tid in w.s.ops && w.s.ops[tid] == DelLocate(filename)
    modifies w
    ensures w.Valid() && w.Continues() && tid in w.s.ops
    ensures Quiet(w.steps, w.states, old(|w.steps|), tid)
    ensures w.s.ops[tid] == if obj.Some? then DelChunks(obj.value, 0, 0) else Ended
    ensures obj.Some? ==> obj.value.filename == filename
    ensures w.During(at)
    ensures obj.None? ==> Unanswered(w.steps, old(|w.steps|), tid) ||
                          Locate(w.states[at].meta, filename).None?
  {
    hide ClientEnabled, Locate, RunOf, Quiet, Unanswered, Updates;
    ghost var from := |w.steps|;
    var s, c := w.Call(tid);
    at := |w.states| - 2;
    obj := if c.answered then Locate(s.meta, filename) else None;
    QuietCall(w.steps, w.states, from, tid);
    LocatedIn(w.cfg, w.steps, w.states, filename);
  }

  /** A call whose own step leaves the object table alone. */
  lemma QuietCall(steps: seq<Step>, states: seq<State>, from: nat, tid: nat)
    requires |states| == |steps| + 1 && from < |steps|
    requires forall k :: from <= k < |steps| - 1 ==> !Own(steps, tid, k)
    requires states[|steps|].meta.objects == states[|steps| - 1].meta.objects
    ensures Quiet(steps, states, from, tid)
  {
  }

  lemma LocatedIn(cfg: Config, steps: seq<Step>, states: seq<State>, filename: Bytes)
    requires RunOf(cfg, steps, states) && 2 <= |states|
    ensures var obj := Locate(states[|states| - 2].meta, filename);
            obj.Some? ==> obj.value.filename == filename
  {
    hide Locate;
    LocatedUnderItsName(cfg, steps, states, |states| - 2, filename);
  }

  method DeleteChunk(w: World, tid: nat, address: Bytes, chunkId: Bytes, ghost obj: ObjectInfo,
                     ghost k: nat, ghost r: nat)
    requires w.Valid() && tid in w.s.ops && w.s.ops[tid] == DelChunks(obj, k, r)
    requires k < |obj.chunks| && r < |obj.chunks[k].replicas|
    requires address == obj.chunks[k].replicas[r].address && chunkId == obj.chunks[k].chunkId
    modifies w
    ensures w.Valid() && w.Continues() && tid in w.s.ops
    ensures Quiet(w.steps, w.states, old(|w.steps|), tid)
    ensures w.s.ops[tid] == DelChunks(obj, k, r + 1)
    ensures DeleteChunkMsg(address, chunkId) in w.s.sent
  {
    hide Unanswered, Updates, RunOf, ClientEnabled, Store.DeleteFiles;
    var at, c := w.Call(tid);
  }

  /** The client moves on to the next chunk, or to the tables after the last one. */
  method NextChunk(w: World, tid: nat, ghost obj: ObjectInfo, ghost k: nat)
    requires w.Valid() && tid in w.s.ops && k <= |obj.chunks|
    requires w.s.ops[tid] == DelChunks(obj, k, if k < |obj.chunks| then |obj.chunks[k].replicas|
                                               else 0)
    modifies w
    ensures w.Valid() && w.Continues() && tid in w.s.ops
    ensures Quiet(w.steps, w.states, old(|w.steps|), tid)
    ensures w.s.ops[tid] == if k < |obj.chunks| then DelChunks(obj, k + 1, 0)
                            else DelName(obj.filename)
  {
    hide Unanswered, Updates, RunOf, ClientEnabled;
    var at, c := w.Call(tid);
  }

  /** The first lock region of delete_object_by_filename: the id that the name stands for. */
  method LookUpName(w: World, tid: nat, filename: Bytes) returns (id: Option<Bytes>, ghost at: nat)
    requires w.Valid() && tid in w.s.ops && w.s.ops[tid] == DelName(filename)
    modifies w
    ensures w.Valid() && w.Continues() && tid in w.s.ops && w.During(at)
    ensures Quiet(w.steps, w.states, old(|w.steps|), tid)
    ensures w.s.ops[tid] == if id.Some? then DelFinish(id.value) else Ended
    ensures id.Some? ==> DeleteByIdMsg(id.value) in w.s.sent && Named(w.states[at], filename, id.value)
    ensures id.None? ==> Unanswered(w.steps, old(|w.steps|), tid) ||
                         filename !in w.states[at].meta.names
  {
    hide RunOf, ClientEnabled, Unanswered, Updates;
    var s, c := w.Call(tid);
    at := |w.states| - 2;
    id := if c.answered && filename in s.meta.names then Some(s.meta.names[filename]) else None;
  }

  ghost predicate Named(s: State, filename: Bytes, id: Bytes) {
    filename in s.meta.names && s.meta.names[filename] == id
  }

  /** The second one, with anything in between: delete that id. It succeeds exactly if this very
      request took the id out of the table. */
  method DeleteById(w: World, tid: nat, id: Bytes) returns (ok: bool)
    requires w.Valid() && tid in w.s.ops && w.s.ops[tid] == DelFinish(id)
    modifies w
    ensures w.Valid() && w.Continues() && tid in w.s.ops && w.s.ops[tid] == Ended
    ensures w.During(|w.states| - 2)
    ensures ok <==> id in w.states[|w.states| - 2].meta.objects && id !in w.s.meta.objects
    ensures !ok ==> Unanswered(w.steps, old(|w.steps|), tid) ||
                    id !in w.states[|w.states| - 2].meta.objects
    ensures ok <==> TookOut(w.steps, w.states, old(|w.steps|), tid, id)
    ensures forall other :: TookOut(w.steps, w.states, old(|w.steps|), tid, other) ==> other == id
  {
    hide RunOf, ClientEnabled, Unanswered, Updates;
    var s, c := w.Call(tid);
    ok := c.answered && id in s.meta.objects;
    assert Own(w.steps, tid, |w.steps| - 1);
  }

  /** In state `at` the name stands for nothing; or it stands for `id`, and in a later state that id
      is gone. */
  ghost predicate Absent(states: seq<State>, at: nat, filename: Bytes, id: Bytes) {
    && at < |states|
    && (Locate(states[at].meta, filename).None? ||
        (Named(states[at], filename, id) &&
         exists k :: at <= k < |states| && id !in states[k].meta.objects))
  }

  /** Succeeds exactly if a request of this call took an object out of the table, and that is the
      one that the name stood for in a state of this call. */
  method DeleteByName(w: World, tid: nat, filename: Bytes)
    returns (ok: bool, ghost id: Bytes, ghost at: nat)
    requires w.Valid() && tid in w.s.ops && w.s.ops[tid] == DelName(filename)
    modifies w
    ensures w.Valid() && w.Continues() && tid in w.s.ops && w.s.ops[tid] == Ended && w.During(at)
    ensures ok <==> exists other :: TookOut(w.steps, w.states, old(|w.steps|), tid, other)
    ensures ok ==> TookOut(w.steps, w.states, old(|w.steps|), tid, id)
    ensures ok ==> id !in w.s.meta.objects && DeleteByIdMsg(id) in w.s.sent &&
                   Named(w.states[at], filename, id)
    ensures !ok ==> Unanswered(w.steps, old(|w.steps|), tid) || Absent(w.states, at, filename, id)
  {
    hide RunOf, Named, TookOut, Quiet, Unanswered, Updates;
    ghost var from := |w.steps|;
    id := [];
    var found;
    found, at := LookUpName(w, tid, filename);
    if found.None? {
      QuietTakesNothing(w.steps, w.states, from, tid);
      return false, [], at;
    }
    ghost var steps, states := w.steps, w.states;
    ok := DeleteById(w, tid, found.value);
    UnansweredOn(steps, w.steps, from, tid);
    forall other
      ensures TookOut(w.steps, w.states, from, tid, other) <==>
              TookOut(w.steps, w.states, |steps|, tid, other)
    {
      TookOutOn(steps, states, w.steps, w.states, from, tid, other);
    }
    id := found.value;
  }

  /** Every replica of the chunk has been sent a delete. */
  ghost predicate Asked(sent: set<Msg>, chunk: ChunkInfo) {
    forall r :: 0 <= r < |chunk.replicas| ==>
      DeleteChunkMsg(chunk.replicas[r].address, chunk.chunkId) in sent
  }

  lemma NothingYet(steps: seq<Step>, states: seq<State>, tid: nat)
    requires |states| == |steps| + 1
    ensures Quiet(steps, states, |steps|, tid)
  {
  }

  lemma QuietTakesNothing(steps: seq<Step>, states: seq<State>, from: nat, tid: nat)
    requires Quiet(steps, states, from, tid)
    ensures forall id :: !TookOut(steps, states, from, tid, id)
  {
  }

  method DeleteReplicas(w: World, tid: nat, chunk: ChunkInfo, ghost obj: ObjectInfo, ghost k: nat)
    requires w.Valid() && tid in w.s.ops && w.s.ops[tid] == DelChunks(obj, k, 0)
    requires k < |obj.chunks| && chunk == obj.chunks[k]
    modifies w
    ensures w.Valid() && w.Continues() && tid in w.s.ops
    ensures w.s.ops[tid] == DelChunks(obj, k + 1, 0) && Asked(w.s.sent, chunk)
    ensures Quiet(w.steps, w.states, old(|w.steps|), tid)
  {
    hide Unanswered, Updates, RunOf, Quiet;
    ghost var from := |w.steps|;
    NothingYet(w.steps, w.states, tid);
    for r := 0 to |chunk.replicas|
      invariant w.Valid() && w.Continues() && tid in w.s.ops
      invariant w.s.ops[tid] == DelChunks(obj, k, r) && Quiet(w.steps, w.states, from, tid)
      invariant forall j :: 0 <= j < r ==>
                  DeleteChunkMsg(chunk.replicas[j].address, chunk.chunkId) in w.s.sent
    {
      ghost var steps, states := w.steps, w.states;
      DeleteChunk(w, tid, chunk.replicas[r].address, chunk.chunkId, obj, k, r);
      QuietOn(steps, states, w.steps, w.states, from, tid);
    }
    ghost var steps, states := w.steps, w.states;
    NextChunk(w, tid, obj, k);
    QuietOn(steps, states, w.steps, w.states, from, tid);
  }

  /** Every replica of every chunk of the located object is asked to delete, before the tables
      are. It succeeds exactly if a request of this very call took an object out of the table, and
      then that is the one that the name stood for in a state of this call. It fails only if some
      request was not answered or, in a state of this call, the file was not there. */
  method Delete(w: World, tid: nat, filename: Bytes)
    returns (ok: bool, ghost located: Option<ObjectInfo>, ghost id: Bytes, ghost at: nat)
    requires w.Valid() && tid !in w.s.ops
    modifies w
    ensures w.Valid() && w.Continues() && tid in w.s.ops && w.s.ops[tid] == Ended
    ensures located.Some? ==>
              && located.value.filename == filename
              && forall k :: 0 <= k < |located.value.chunks| ==>
                   Asked(w.s.sent, located.value.chunks[k])
    ensures ok <==> exists other :: TookOut(w.steps, w.states, old(|w.steps|), tid, other)
    ensures ok ==> TookOut(w.steps, w.states, old(|w.steps|), tid, id)
    ensures ok ==> located.Some? && id !in w.s.meta.objects && DeleteByIdMsg(id) in w.s.sent &&
                   w.During(at) && Named(w.states[at], filename, id)
    ensures !ok ==> Unanswered(w.steps, old(|w.steps|), tid) ||
                    (w.During(at) && Absent(w.states, at, filename, id))
  {
    hide RunOf, Asked, Named, Quiet, TookOut, Unanswered, Updates, Locate;
    ghost var from := |w.steps|;
    ok, located, id, at := false, None, [], 0;
    w.Begin(tid, DelLocate(filename));
    ghost var steps, states := w.steps, w.states;
    var found;
    found, at := LocateForDelete(w, tid, filename);
    QuietOn(steps, states, w.steps, w.states, from, tid);
    UnansweredOn(steps, w.steps, from, tid);
    if found.None? {
      QuietTakesNothing(w.steps, w.states, from, tid);
      return;
    }
    steps, states := w.steps, w.states;
    DeleteChunks(w, tid, found.value);
    QuietOn(steps, states, w.steps, w.states, from, tid);
    steps, states := w.steps, w.states;
    ghost var before := w.s.sent;
    ok, id, at := DeleteByName(w, tid, filename);
    UnansweredOn(steps, w.steps, from, tid);
    StillAsked(before, w.s.sent);
    forall other
      ensures TookOut(w.steps, w.states, from, tid, other) <==>
              TookOut(w.steps, w.states, |steps|, tid, other)
    {
      TookOutOn(steps, states, w.steps, w.states, from, tid, other);
    }
    located := found;
  }

  method DeleteChunks(w: World, tid: nat, obj: ObjectInfo)
    requires w.Valid() && tid in w.s.ops && w.s.ops[tid] == DelChunks(obj, 0, 0)
    modifies w
    ensures w.Valid() && w.Continues() && tid in w.s.ops && w.s.ops[tid] == DelName(obj.filename)
    ensures forall k :: 0 <= k < |obj.chunks| ==> Asked(w.s.sent, obj.chunks[k])
    ensures Quiet(w.steps, w.states, old(|w.steps|), tid)
  {
    hide Unanswered, Updates, RunOf, Asked, Quiet;
    ghost var from := |w.steps|;
    NothingYet(w.steps, w.states, tid);
    for k := 0 to |obj.chunks|
      invariant w.Valid() && w.Continues() && tid in w.s.ops
      invariant w.s.ops[tid] == DelChunks(obj, k, 0) && Quiet(w.steps, w.states, from, tid)
      invariant forall j :: 0 <= j < k ==> Asked(w.s.sent, obj.chunks[j])
    {
      ghost var before, steps, states := w.s.sent, w.steps, w.states;
      DeleteReplicas(w, tid, obj.chunks[k], obj, k);
      StillAsked(before, w.s.sent);
      QuietOn(steps, states, w.steps, w.states, from, tid);
    }
    ghost var before, steps, states := w.s.sent, w.steps, w.states;
    NextChunk(w, tid, obj, |obj.chunks|);
    StillAsked(before, w.s.sent);
    QuietOn(steps, states, w.steps, w.states, from, tid);
  }

  lemma StillAsked(sent: set<Msg>, sent': set<Msg>)
    requires sent <= sent'
    ensures forall chunk :: Asked(sent, chunk) ==> Asked(sent', chunk)
  {
  }
}
