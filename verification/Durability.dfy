/** What an acknowledged write and a published replica list are worth: in every run, a replica
    that is listed for a chunk holds the chunk's slice, unless it has been lost or
    deleted there since. */
module Durability {
  import opened Bytes
  import opened Types
  import opened ChunkFormat
  import opened Planner
  import opened MetadataStore
  import opened Selection
  import opened Protocol
  import opened Integrity

  // ---- What is claimed of a replica list ----

  ghost predicate Holds(cfg: Config, s: State, address: Bytes, c: Bytes) {
    && c in s.hist.births
    && var r := Store.Read(cfg.hash, Disk(s, address), c);
       r.Some? && r.value.1 == s.hist.births[c].bytes
  }

  ghost predicate Held(cfg: Config, s: State, address: Bytes, c: Bytes) {
    || (address, c) in s.lost
    || DeleteChunkMsg(address, c) in s.sent
    || Holds(cfg, s, address, c)
  }

  ghost predicate DistinctReplicas(replicas: seq<ReplicaInfo>) {
    forall i, j :: 0 <= i < j < |replicas| ==> replicas[i].address != replicas[j].address
  }

  /** At most as many replicas as the replication factor; exactly the first is the primary, every
      one is held, and no address occurs twice. */
  ghost predicate RepsOk(cfg: Config, s: State, c: Bytes, replicas: seq<ReplicaInfo>) {
    && |replicas| <= cfg.rf
    && (forall i :: 0 <= i < |replicas| ==> (replicas[i].isPrimary <==> i == 0))
    && (!s.corrupt ==> forall i :: 0 <= i < |replicas| ==> Held(cfg, s, replicas[i].address, c))
    && (!s.repeated ==> DistinctReplicas(replicas))
  }

  /** A published chunk has a quorum of such replicas. */
  ghost predicate ChunkDur(cfg: Config, s: State, chunk: ChunkInfo) {
    chunk.checksum != [] ==>
      && RepsOk(cfg, s, chunk.chunkId, chunk.replicas)
      && |chunk.replicas| >= Required(cfg.rf, cfg.policy)
  }

  ghost predicate MsgDur(cfg: Config, s: State, m: Msg) {
    m.UpdateMsg? ==> ChunkDur(cfg, s, m.chunk)
  }

  /** A replica list under construction: its entries come from the nodes tried so far. */
  ghost predicate Collected(cfg: Config, s: State, c: Bytes, nodes: seq<NodeInfo>, i: nat,
                            replicas: seq<ReplicaInfo>)
  {
    && RepsOk(cfg, s, c, replicas)
    && |replicas| <= i && |nodes| <= cfg.rf
    && (!s.repeated ==> DistinctAddresses(nodes))
    && FromNodes(replicas, nodes, i)
  }

  ghost predicate FromNodes(replicas: seq<ReplicaInfo>, nodes: seq<NodeInfo>, i: nat) {
    forall k :: 0 <= k < |replicas| ==>
      exists j :: 0 <= j < i && j < |nodes| && replicas[k].address == nodes[j].address
  }

  /** While every update of a put has been acknowledged, its finished chunks are published (if
      the object has not been deleted). */
  ghost predicate Progress(s: State, p: PutState) {
    p.acked && p.objectId in s.meta.objects ==>
      var chunks := s.meta.objects[p.objectId].chunks;
      forall j :: 0 <= j < p.k && j < |chunks| ==> chunks[j].checksum != []
  }

  /** The chunks of an object record that was once in the table. */
  ghost predicate Located(cfg: Config, s: State, obj: ObjectInfo) {
    forall k :: 0 <= k < |obj.chunks| ==> ChunkDur(cfg, s, obj.chunks[k])
  }

  ghost predicate OpDur(cfg: Config, s: State, op: Op) {
    match op
    case PutSelect(p) => Progress(s, p)
    case PutWrite(p, nodes, i, replicas) =>
      Progress(s, p) && p.k < |p.plan| &&
      Collected(cfg, s, p.plan[p.k].chunkId, nodes, i, replicas)
    case PutPublish(p, replicas) =>
      Progress(s, p) && p.k < |p.plan| && RepsOk(cfg, s, p.plan[p.k].chunkId, replicas) &&
      |replicas| >= Required(cfg.rf, cfg.policy)
    case PutDone(p) => Progress(s, p)
    case GetRead(obj, _, _) => Located(cfg, s, obj)
    case RepairWrite(rs, _, nodes, i, replicas) =>
      rs.todo != [] ==> Collected(cfg, s, rs.todo[0].chunkId, nodes, i, replicas)
    case RepairPublish(rs, _, replicas) =>
      rs.todo != [] ==>
        RepsOk(cfg, s, rs.todo[0].chunkId, replicas) && |replicas| >= Required(cfg.rf, cfg.policy)
    case _ => true
  }

  ghost predicate MetaDur(cfg: Config, s: State) {
    forall id :: id in s.meta.objects ==>
      forall k :: 0 <= k < |s.meta.objects[id].chunks| ==>
        ChunkDur(cfg, s, s.meta.objects[id].chunks[k])
  }

  ghost predicate SentDur(cfg: Config, s: State) {
    forall m :: m in s.sent ==> MsgDur(cfg, s, m)
  }

  ghost predicate OpsDur(cfg: Config, s: State) {
    forall t :: t in s.ops ==> OpDur(cfg, s, s.ops[t])
  }

  ghost predicate Dur(cfg: Config, s: State) {
    MetaDur(cfg, s) && SentDur(cfg, s) && OpsDur(cfg, s)
  }

  // ---- What later states keep ----

  /** Nothing that was held is lost, and the flags only go up. */
  ghost predicate Later(cfg: Config, s: State, s': State) {
    && (s.corrupt ==> s'.corrupt)
    && (s.repeated ==> s'.repeated)
    && (!s'.corrupt ==> forall a, c :: Held(cfg, s, a, c) ==> Held(cfg, s', a, c))
  }

  /** Objects do not come back, and published chunks stay published. */
  ghost predicate StaysPublished(s: State, s': State) {
    forall id :: id in s'.meta.objects && id in s.hist.datas ==>
      && id in s.meta.objects
      && |s'.meta.objects[id].chunks| == |s.meta.objects[id].chunks|
      && forall k :: 0 <= k < |s.meta.objects[id].chunks| ==>
           s.meta.objects[id].chunks[k].checksum != [] ==>
             s'.meta.objects[id].chunks[k].checksum != []
  }

  lemma RepsLater(cfg: Config, s: State, s': State, c: Bytes, replicas: seq<ReplicaInfo>)
    requires Later(cfg, s, s') && RepsOk(cfg, s, c, replicas)
    ensures RepsOk(cfg, s', c, replicas)
  {
    hide Held, DistinctReplicas;
  }

  lemma ChunkLater(cfg: Config, s: State, s': State, chunk: ChunkInfo)
    requires Later(cfg, s, s') && ChunkDur(cfg, s, chunk)
    ensures ChunkDur(cfg, s', chunk)
  {
    hide RepsOk, Later;
    if chunk.checksum != [] {
      RepsLater(cfg, s, s', chunk.chunkId, chunk.replicas);
    }
  }

  lemma CollectedLater(cfg: Config, s: State, s': State, c: Bytes, nodes: seq<NodeInfo>, i: nat,
                       replicas: seq<ReplicaInfo>)
    requires Later(cfg, s, s') && Collected(cfg, s, c, nodes, i, replicas)
    ensures Collected(cfg, s', c, nodes, i, replicas)
  {
    hide RepsOk, DistinctAddresses, Held, FromNodes;
    RepsLater(cfg, s, s', c, replicas);
  }

  lemma ProgressLater(s: State, s': State, p: PutState)
    requires StaysPublished(s, s') && Progress(s, p) && p.objectId in s.hist.datas
    ensures Progress(s', p)
  {
  }

  lemma OpLater(cfg: Config, s: State, s': State, op: Op)
    requires Later(cfg, s, s') && StaysPublished(s, s')
    requires OpOk(cfg, s.hist, s.corrupt, op) && OpDur(cfg, s, op)
    ensures OpDur(cfg, s', op)
  {
    hide RepsOk, Later, StaysPublished, Progress, Collected, Located, PiecesOk, RepairOk, ObjOk,
         ChunksOk, PutOk;
    match op
    case PutSelect(p) => PutOid(cfg, s.hist, p); ProgressLater(s, s', p);
    case PutWrite(p, nodes, i, replicas) =>
      PutOid(cfg, s.hist, p);
      ProgressLater(s, s', p);
      CollectedLater(cfg, s, s', p.plan[p.k].chunkId, nodes, i, replicas);
    case PutPublish(p, replicas) =>
      PutOid(cfg, s.hist, p);
      ProgressLater(s, s', p);
      RepsLater(cfg, s, s', p.plan[p.k].chunkId, replicas);
    case PutDone(p) => PutOid(cfg, s.hist, p); ProgressLater(s, s', p);
    case GetRead(obj, _, _) => LocatedLater(cfg, s, s', obj);
    case RepairWrite(rs, _, nodes, i, replicas) =>
      if rs.todo != [] {
        CollectedLater(cfg, s, s', rs.todo[0].chunkId, nodes, i, replicas);
      }
    case RepairPublish(rs, _, replicas) =>
      if rs.todo != [] {
        RepsLater(cfg, s, s', rs.todo[0].chunkId, replicas);
      }
    case _ =>
  }

  lemma LocatedLater(cfg: Config, s: State, s': State, obj: ObjectInfo)
    requires Later(cfg, s, s') && Located(cfg, s, obj)
    ensures Located(cfg, s', obj)
  {
    hide Later, ChunkDur;
    forall k | 0 <= k < |obj.chunks| ensures ChunkDur(cfg, s', obj.chunks[k]) {
      ChunkLater(cfg, s, s', obj.chunks[k]);
    }
  }

  lemma PutOid(cfg: Config, h: History, p: PutState)
    requires PutOk(cfg, h, p)
    ensures p.objectId in h.datas
  {
  }

  /** The frame of a step: given what it did to the tables, its new requests and its new program
      point, everything else carries over. */
  lemma DurFrame(cfg: Config, s: State, s': State)
    requires OpsOk(cfg, s) && Dur(cfg, s)
    requires Later(cfg, s, s') && StaysPublished(s, s') && MetaDur(cfg, s')
    requires forall m :: m in s'.sent && m !in s.sent ==> MsgDur(cfg, s', m)
    requires forall t :: t in s'.ops && !(t in s.ops && s.ops[t] == s'.ops[t]) ==>
               OpDur(cfg, s', s'.ops[t])
    ensures Dur(cfg, s')
  {
    hide OpDur, OpOk, Later, StaysPublished, MetaDur, ChunkDur;
    forall m | m in s'.sent ensures MsgDur(cfg, s', m) {
      if m in s.sent && m.UpdateMsg? {
        assert MsgDur(cfg, s, m);
        ChunkLater(cfg, s, s', m.chunk);
      }
    }
    forall t | t in s'.ops ensures OpDur(cfg, s', s'.ops[t]) {
      if t in s.ops && s.ops[t] == s'.ops[t] {
        OpLater(cfg, s, s', s.ops[t]);
      }
    }
  }

  /** Unchanged tables keep their chunks durable and published. */
  lemma SameTables(cfg: Config, s: State, s': State)
    requires Later(cfg, s, s') && MetaDur(cfg, s) && s'.meta.objects == s.meta.objects
    ensures MetaDur(cfg, s') && StaysPublished(s, s')
  {
    hide ChunkDur, Later;
    forall id, k | id in s'.meta.objects && 0 <= k < |s'.meta.objects[id].chunks|
      ensures ChunkDur(cfg, s', s'.meta.objects[id].chunks[k])
    {
      ChunkLater(cfg, s, s', s.meta.objects[id].chunks[k]);
    }
  }

  // ---- Server effects ----

  lemma QuietLater(cfg: Config, s: State, s': State)
    requires s'.disks == s.disks && s.sent <= s'.sent && s.lost <= s'.lost
    requires Grows(s.hist, s'.hist)
    requires (s.corrupt ==> s'.corrupt) && (s.repeated ==> s'.repeated)
    ensures Later(cfg, s, s')
  {
    hide Store.Read;
  }

  lemma LaterTransitive(cfg: Config, s: State, s1: State, s2: State)
    requires Later(cfg, s, s1) && Later(cfg, s1, s2)
    ensures Later(cfg, s, s2)
  {
    hide Held;
  }

  lemma WriteLater(cfg: Config, s: State, address: Bytes, hd: Header, payload: Bytes, now: nat,
                   fate: Store.WriteFate)
    requires WriteOk(cfg, s.hist, s.corrupt, hd, payload) && now < U64_LIMIT
    ensures var (s', ok) := ServeWrite(cfg, s, address, hd, payload, now, fate);
            && Later(cfg, s, s')
            && (ok && !s'.corrupt ==> Held(cfg, s', address, hd.chunkId))
  {
    hide Store.Read, Store.WriteFiles, Store.Image, Store.Storable, Store.ReadAfterWrite,
         Store.Accepts;
    var (s', ok) := ServeWrite(cfg, s, address, hd, payload, now, fate);
    WriteStorable(cfg, s.hist, s.corrupt, hd, payload, now);
    if !s'.corrupt {
      var files := Disk(s, address);
      Store.AfterWrite(cfg.hash, files, hd, payload, now, fate);
      Store.WriteReads(cfg.hash, files, hd, payload, now, fate, hd.chunkId);
      forall a, c | Held(cfg, s, a, c) ensures Held(cfg, s', a, c) {
        if a == address {
          Store.WriteReads(cfg.hash, files, hd, payload, now, fate, c);
        }
      }
    }
  }

  lemma DeleteChunkLater(cfg: Config, s: State, address: Bytes, id: Bytes, fate: Store.DeleteFate)
    requires DeleteChunkMsg(address, id) in s.sent
    ensures Later(cfg, s, ServeDeleteChunk(s, address, id, fate))
  {
    hide Store.Read, Store.DeleteFiles;
    var s' := ServeDeleteChunk(s, address, id, fate);
    forall a, c | Held(cfg, s, a, c) ensures Held(cfg, s', a, c) {
      if a == address {
        Store.DeleteReads(cfg.hash, Disk(s, address), id, fate, c);
      }
    }
  }

  lemma DiskFaultLater(cfg: Config, s: State, address: Bytes, s': State)
    requires s'.corrupt || forall c :: c in s.hist.births ==> (address, c) in s'.lost
    requires s' == s.(disks := s.disks[address := Disk(s', address)], lost := s'.lost,
                      corrupt := s'.corrupt)
    requires s.lost <= s'.lost && (s.corrupt ==> s'.corrupt) && address in s'.disks
    ensures Later(cfg, s, s')
  {
    hide Store.Read;
  }

  /** An acknowledged update publishes the chunk at the position it was planned for. */
  lemma UpdatePublishes(cfg: Config, s: State, id: Bytes, c: ChunkInfo)
    requires id in s.meta.objects && ObjOk(cfg, s.hist, s.meta.objects[id])
    requires ChunkOk(cfg, s.hist, c) && c.checksum != []
    ensures var (s', ok) := ServeUpdate(s, id, c);
            ok ==> id in s'.meta.objects && c.chunkIndex < |s'.meta.objects[id].chunks| &&
                   s'.meta.objects[id].chunks[c.chunkIndex] == c
  {
    hide Join, TotalSize, Shape;
    var chunks := s.meta.objects[id].chunks;
    if HasChunk(chunks, c.chunkId) {
      var k :| 0 <= k < |chunks| && chunks[k].chunkId == c.chunkId;
      assert ChunkOk(cfg, s.hist, chunks[k]);
      assert k == c.chunkIndex;
      forall j | 0 <= j < k ensures chunks[j].chunkId != c.chunkId {
        assert ChunkOk(cfg, s.hist, chunks[j]);
      }
      ReplaceChunkAt(chunks, c, k);
    }
  }

  lemma UpdateTables(cfg: Config, s: State, id: Bytes, c: ChunkInfo)
    requires MetaOk(cfg, s) && MetaDur(cfg, s)
    requires ChunkOk(cfg, s.hist, c) && c.checksum != [] && ChunkDur(cfg, s, c)
    ensures var s' := ServeUpdate(s, id, c).0;
            Later(cfg, s, s') && MetaDur(cfg, s') && StaysPublished(s, s')
  {
    hide Store.Read, ChunkDur, Tables, ObjOk, ChunkOk;
    var s' := ServeUpdate(s, id, c).0;
    QuietLater(cfg, s, s');
    if id in s.meta.objects {
      UpdateChunks(cfg, s.hist, s.meta.objects[id], c);
    }
    hide Later, ReplaceChunk, HasChunk;
    forall o, k | o in s'.meta.objects && 0 <= k < |s'.meta.objects[o].chunks|
      ensures ChunkDur(cfg, s', s'.meta.objects[o].chunks[k])
    {
      ChunkLater(cfg, s, s', c);
      ChunkLater(cfg, s, s', s.meta.objects[o].chunks[k]);
    }
  }

  lemma UpdateChunks(cfg: Config, h: History, obj: ObjectInfo, c: ChunkInfo)
    requires ObjOk(cfg, h, obj) && ChunkOk(cfg, h, c)
    ensures |ReplaceChunk(obj.chunks, c)| == |obj.chunks|
    ensures forall k :: 0 <= k < |obj.chunks| ==>
              ReplaceChunk(obj.chunks, c)[k] == obj.chunks[k] || ReplaceChunk(obj.chunks, c)[k] == c
  {
    hide Join, TotalSize, Shape;
    ReplaceKeepsJoin(cfg, h, obj.chunks, c);
  }

  lemma DeleteTables(cfg: Config, s: State, id: Bytes)
    requires MetaDur(cfg, s)
    ensures var s' := ServeDelete(s, id);
            Later(cfg, s, s') && MetaDur(cfg, s') && StaysPublished(s, s')
  {
    hide Store.Read, ChunkDur;
    var s' := ServeDelete(s, id);
    QuietLater(cfg, s, s');
    hide Later;
    forall o, k | o in s'.meta.objects && 0 <= k < |s'.meta.objects[o].chunks|
      ensures ChunkDur(cfg, s', s'.meta.objects[o].chunks[k])
    {
      ChunkLater(cfg, s, s', s.meta.objects[o].chunks[k]);
    }
  }

  lemma CreateTables(cfg: Config, s: State, filename: Bytes, data: Bytes, id: Bytes,
                     uuids: seq<Bytes>)
    requires ConfigOk(cfg) && FreshIds(cfg, s, data, id, uuids)
    requires MetaDur(cfg, s) && Grows(s.hist, ServeCreate(cfg, s, filename, data, id, uuids).0.hist)
    ensures var s' := ServeCreate(cfg, s, filename, data, id, uuids).0;
            Later(cfg, s, s') && MetaDur(cfg, s') && StaysPublished(s, s')
  {
    hide Store.Read, RepsOk, Births, Held;
    var (s', obj) := ServeCreate(cfg, s, filename, data, id, uuids);
    QuietLater(cfg, s, s');
    if obj.Some? {
      var plan := Plan(id, |data|, cfg.chunkSize, uuids);
      assert forall k :: 0 <= k < |plan| ==> plan[k].checksum == [];
      hide Plan, Later;
      forall o, k | o in s'.meta.objects && 0 <= k < |s'.meta.objects[o].chunks|
        ensures ChunkDur(cfg, s', s'.meta.objects[o].chunks[k])
      {
        if o != id {
          ChunkLater(cfg, s, s', s.meta.objects[o].chunks[k]);
        }
      }
    }
  }
}
