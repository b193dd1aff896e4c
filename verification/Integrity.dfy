/** No run of the replicated store ever serves wrong data: in every interleaving, a get that
    succeeds returns the bytes of the put that created the object it located. */
module Integrity {
  import opened Bytes
  import opened Types
  import opened ChunkFormat
  import opened Planner
  import opened MetadataStore
  import opened Protocol

  // ---- What a chunk, an object, a request and an operation must look like ----

  ghost predicate HistOk(h: History) {
    forall c :: c in h.births ==>
      |c| < U32_LIMIT && |h.births[c].objectId| < U32_LIMIT && |h.births[c].bytes| < U64_LIMIT
  }

  ghost predicate Grows(h: History, h': History) {
    && (forall o :: o in h.datas ==> o in h'.datas && h'.datas[o] == h.datas[o])
    && (forall o :: o in h.names ==> o in h'.names && h'.names[o] == h.names[o])
    && (forall c :: c in h.births ==> c in h'.births && h'.births[c] == h.births[c])
  }

  /** A chunk record describes the slice its id was generated for. It lists replicas only once it
      carries that slice's checksum. */
  ghost predicate ChunkOk(cfg: Config, h: History, c: ChunkInfo) {
    && c.chunkId in h.births
    && var b := h.births[c.chunkId];
       && c.objectId == b.objectId
       && c.chunkIndex == b.index
       && c.size == |b.bytes|
       && c.version < U32_LIMIT
       && if c.checksum == [] then c.replicas == [] else c.checksum == cfg.hash(b.bytes)
  }

  ghost predicate ChunksOk(cfg: Config, h: History, chunks: seq<ChunkInfo>) {
    forall k :: 0 <= k < |chunks| ==> ChunkOk(cfg, h, chunks[k])
  }

  /** The slices of a list of chunks, put together. */
  ghost function Join(h: History, chunks: seq<ChunkInfo>): Bytes
    requires forall k :: 0 <= k < |chunks| ==> chunks[k].chunkId in h.births
  {
    if chunks == [] then []
    else Join(h, chunks[..|chunks| - 1]) + h.births[chunks[|chunks| - 1].chunkId].bytes
  }

  /** An object record has the name it was put under and lists its chunks in order, and their
      slices make up the data it was put with. */
  ghost predicate ObjOk(cfg: Config, h: History, obj: ObjectInfo) {
    && obj.objectId in h.datas
    && obj.objectId in h.names && h.names[obj.objectId] == obj.filename
    && ChunksOk(cfg, h, obj.chunks)
    && (forall k :: 0 <= k < |obj.chunks| ==>
          obj.chunks[k].chunkIndex == k && obj.chunks[k].objectId == obj.objectId)
    && Join(h, obj.chunks) == h.datas[obj.objectId]
    && obj.size == |h.datas[obj.objectId]| == TotalSize(obj.chunks)
    && Shape(cfg, obj.size, obj.chunks)
  }

  /** The planner's shape: the right number of chunks, all full except possibly the last. */
  ghost predicate Shape(cfg: Config, size: nat, chunks: seq<ChunkInfo>) {
    && cfg.chunkSize > 0
    && |chunks| == ChunkCount(size, cfg.chunkSize)
    && forall k :: 0 <= k < |chunks| ==> chunks[k].size == PlannedSize(size, cfg.chunkSize, k)
  }

  /** The write carries the slice of the chunk id it names. */
  ghost predicate WriteOk(cfg: Config, h: History, corrupt: bool, hd: Header, payload: Bytes) {
    && (!corrupt ==> hd.chunkId in h.births && payload == h.births[hd.chunkId].bytes)
    && FieldsFit(hd)
    && hd.size == |payload|
    && hd.checksum == cfg.hash(payload)
  }

  ghost predicate MsgOk(cfg: Config, h: History, corrupt: bool, m: Msg) {
    match m
    case WriteMsg(_, hd, payload) => WriteOk(cfg, h, corrupt, hd, payload)
    case UpdateMsg(id, c) => ChunkOk(cfg, h, c) && c.objectId == id && c.checksum != []
    case CreateMsg(_, data) => |data| < U64_LIMIT
    case _ => true
  }

  ghost predicate PutOk(cfg: Config, h: History, p: PutState) {
    && p.objectId in h.datas && h.datas[p.objectId] == p.data
    && p.objectId in h.names && h.names[p.objectId] == p.filename
    && ChunksOk(cfg, h, p.plan)
    && (forall j :: 0 <= j < |p.plan| ==>
          && p.plan[j].objectId == p.objectId
          && p.plan[j].chunkIndex == j
          && h.births[p.plan[j].chunkId].bytes ==
             Slice(p.data, TotalSize(p.plan[..j]), p.plan[j].size))
    && Shape(cfg, |p.data|, p.plan)
    && p.k <= |p.plan|
    && p.offset == TotalSize(p.plan[..p.k])
  }

  ghost predicate RepairOk(cfg: Config, h: History, corrupt: bool, rs: RepairState, bytes: Bytes) {
    && ChunksOk(cfg, h, rs.todo)
    && rs.todo != []
    && rs.todo[0].checksum != []
    && |bytes| < U64_LIMIT
    && (!corrupt ==> bytes == h.births[rs.todo[0].chunkId].bytes)
  }

  /** Every piece hashes like the slice it stands for; and it is that slice, unless a disk was
      damaged. */
  ghost predicate PiecesOk(cfg: Config, h: History, corrupt: bool, obj: ObjectInfo,
                           pieces: seq<Bytes>)
  {
    && ObjOk(cfg, h, obj)
    && |pieces| <= |obj.chunks|
    && forall j :: 0 <= j < |pieces| ==>
         && cfg.hash(pieces[j]) == cfg.hash(h.births[obj.chunks[j].chunkId].bytes)
         && (!corrupt ==> pieces[j] == h.births[obj.chunks[j].chunkId].bytes)
  }

  ghost predicate OpOk(cfg: Config, h: History, corrupt: bool, op: Op) {
    match op
    case PutCreate(_, data) => |data| < U64_LIMIT
    case PutSelect(p) => PutOk(cfg, h, p)
    case PutWrite(p, _, _, _) => PutOk(cfg, h, p) && p.k < |p.plan|
    case PutPublish(p, _) => PutOk(cfg, h, p) && p.k < |p.plan|
    case PutAbort(p) => PutOk(cfg, h, p)
    case PutDone(p) => PutOk(cfg, h, p) && p.k == |p.plan|
    case GetRead(obj, _, pieces) => PiecesOk(cfg, h, corrupt, obj, pieces)
    case GetDone(obj, pieces) => PiecesOk(cfg, h, corrupt, obj, pieces) && |pieces| == |obj.chunks|
    case RepairScan(rs) => rs.todo == []
    case RepairFetch(rs, _) => ChunksOk(cfg, h, rs.todo)
    case RepairSelect(rs, bytes) => RepairOk(cfg, h, corrupt, rs, bytes)
    case RepairWrite(rs, bytes, _, _, _) => RepairOk(cfg, h, corrupt, rs, bytes)
    case RepairPublish(rs, bytes, _) => RepairOk(cfg, h, corrupt, rs, bytes)
    case DelChunks(obj, _, _) => ObjOk(cfg, h, obj)
    case _ => true
  }

  // ---- The invariant ----

  ghost predicate MetaOk(cfg: Config, s: State) {
    && Tables(s.meta)
    && forall id :: id in s.meta.objects ==> ObjOk(cfg, s.hist, s.meta.objects[id])
  }

  /** A file under chunk id `c`, on any node, holds the slice of `c`. */
  ghost predicate DiskOk(cfg: Config, s: State, address: Bytes, c: Bytes) {
    var r := Store.Read(cfg.hash, Disk(s, address), c);
    r.Some? ==> c in s.hist.births && r.value.1 == s.hist.births[c].bytes
  }

  ghost predicate DisksOk(cfg: Config, s: State) {
    !s.corrupt ==> forall address, c :: DiskOk(cfg, s, address, c)
  }

  ghost predicate SentOk(cfg: Config, s: State) {
    forall m :: m in s.sent ==> MsgOk(cfg, s.hist, s.corrupt, m)
  }

  /** Every object's name and data were given to one put. */
  ghost predicate DatasOk(s: State) {
    forall o :: o in s.hist.datas ==>
      o in s.hist.names && CreateMsg(s.hist.names[o], s.hist.datas[o]) in s.sent
  }

  ghost predicate Core(cfg: Config, s: State) {
    HistOk(s.hist) && MetaOk(cfg, s) && DisksOk(cfg, s) && SentOk(cfg, s) && DatasOk(s)
  }

  ghost predicate OpsOk(cfg: Config, s: State) {
    forall t :: t in s.ops ==> OpOk(cfg, s.hist, s.corrupt, s.ops[t])
  }

  ghost predicate Inv(cfg: Config, s: State) {
    Core(cfg, s) && OpsOk(cfg, s)
  }

  // ---- Growth of the history disturbs nothing ----

  lemma {:induction false} JoinGrows(h: History, h': History, chunks: seq<ChunkInfo>)
    requires Grows(h, h')
    requires forall k :: 0 <= k < |chunks| ==> chunks[k].chunkId in h.births
    ensures forall k :: 0 <= k < |chunks| ==> chunks[k].chunkId in h'.births
    ensures Join(h', chunks) == Join(h, chunks)
  {
    if chunks != [] {
      JoinGrows(h, h', chunks[..|chunks| - 1]);
    }
  }

  lemma ObjGrows(cfg: Config, h: History, h': History, obj: ObjectInfo)
    requires Grows(h, h') && ObjOk(cfg, h, obj)
    ensures ObjOk(cfg, h', obj)
  {
    JoinGrows(h, h', obj.chunks);
  }

  lemma MsgGrows(cfg: Config, h: History, h': History, corrupt: bool, corrupt': bool, m: Msg)
    requires Grows(h, h') && (corrupt ==> corrupt') && MsgOk(cfg, h, corrupt, m)
    ensures MsgOk(cfg, h', corrupt', m)
  {
    hide FieldsFit;
  }

  lemma OpGrows(cfg: Config, h: History, h': History, corrupt: bool, corrupt': bool, op: Op)
    requires Grows(h, h') && (corrupt ==> corrupt') && OpOk(cfg, h, corrupt, op)
    ensures OpOk(cfg, h', corrupt', op)
  {
    hide ObjOk, PutOk, RepairOk, PiecesOk;
    match op
    case PutSelect(p) => PutGrows(cfg, h, h', p);
    case PutWrite(p, _, _, _) => PutGrows(cfg, h, h', p);
    case PutPublish(p, _) => PutGrows(cfg, h, h', p);
    case PutAbort(p) => PutGrows(cfg, h, h', p);
    case PutDone(p) => PutGrows(cfg, h, h', p);
    case GetRead(obj, _, pieces) => PiecesGrow(cfg, h, h', corrupt, corrupt', obj, pieces);
    case GetDone(obj, pieces) => PiecesGrow(cfg, h, h', corrupt, corrupt', obj, pieces);
    case RepairSelect(rs, bytes) => RepairGrows(cfg, h, h', corrupt, corrupt', rs, bytes);
    case RepairWrite(rs, bytes, _, _, _) => RepairGrows(cfg, h, h', corrupt, corrupt', rs, bytes);
    case RepairPublish(rs, bytes, _) => RepairGrows(cfg, h, h', corrupt, corrupt', rs, bytes);
    case DelChunks(obj, _, _) => ObjGrows(cfg, h, h', obj);
    case _ =>
  }

  lemma PutGrows(cfg: Config, h: History, h': History, p: PutState)
    requires Grows(h, h') && PutOk(cfg, h, p)
    ensures PutOk(cfg, h', p)
  {
    hide Slice, TotalSize, Shape;
  }

  lemma RepairGrows(cfg: Config, h: History, h': History, corrupt: bool, corrupt': bool,
                    rs: RepairState, bytes: Bytes)
    requires Grows(h, h') && (corrupt ==> corrupt') && RepairOk(cfg, h, corrupt, rs, bytes)
    ensures RepairOk(cfg, h', corrupt', rs, bytes)
  {
  }

  lemma PiecesGrow(cfg: Config, h: History, h': History, corrupt: bool, corrupt': bool,
                   obj: ObjectInfo, pieces: seq<Bytes>)
    requires Grows(h, h') && (corrupt ==> corrupt') && PiecesOk(cfg, h, corrupt, obj, pieces)
    ensures PiecesOk(cfg, h', corrupt', obj, pieces)
  {
    ObjGrows(cfg, h, h', obj);
    assert ChunksOk(cfg, h, obj.chunks);
  }

  /** The frame of a client step: one operation moved, the rest of the invariant carries over. */
  lemma OpsFrame(cfg: Config, s: State, s': State, tid: nat)
    requires Inv(cfg, s) && Core(cfg, s')
    requires Grows(s.hist, s'.hist) && (s.corrupt ==> s'.corrupt)
    requires tid in s'.ops && s'.ops == s.ops[tid := s'.ops[tid]]
    requires OpOk(cfg, s'.hist, s'.corrupt, s'.ops[tid])
    ensures Inv(cfg, s')
  {
    hide OpOk, Core;
    forall t | t in s'.ops ensures OpOk(cfg, s'.hist, s'.corrupt, s'.ops[t]) {
      if t != tid {
        OpGrows(cfg, s.hist, s'.hist, s.corrupt, s'.corrupt, s.ops[t]);
      }
    }
  }

  /** The frame of a server step: no operation moved. */
  lemma ServerFrame(cfg: Config, s: State, s': State)
    requires Inv(cfg, s) && Core(cfg, s')
    requires Grows(s.hist, s'.hist) && (s.corrupt ==> s'.corrupt) && s'.ops == s.ops
    ensures Inv(cfg, s')
  {
    hide OpOk, Core;
    forall t | t in s'.ops ensures OpOk(cfg, s'.hist, s'.corrupt, s'.ops[t]) {
      OpGrows(cfg, s.hist, s'.hist, s.corrupt, s'.corrupt, s.ops[t]);
    }
  }

  /** The frame of a step that leaves the directories alone. */
  lemma CoreFrame(cfg: Config, s: State, s': State)
    requires Core(cfg, s) && MetaOk(cfg, s') && HistOk(s'.hist) && DatasOk(s')
    requires Grows(s.hist, s'.hist) && s'.disks == s.disks && s'.corrupt == s.corrupt
    requires forall m :: m in s'.sent && m !in s.sent ==> MsgOk(cfg, s'.hist, s'.corrupt, m)
    ensures Core(cfg, s')
  {
    hide MsgOk, MetaOk, HistOk, DatasOk, Store.Read;
    forall m | m in s'.sent ensures MsgOk(cfg, s'.hist, s'.corrupt, m) {
      if m in s.sent {
        MsgGrows(cfg, s.hist, s'.hist, s.corrupt, s'.corrupt, m);
      }
    }
    if !s'.corrupt {
      forall a, c ensures DiskOk(cfg, s', a, c) {
        assert DiskOk(cfg, s, a, c);
      }
    }
  }

  // ---- Sending a well-formed request ----

  lemma SendOk(cfg: Config, s: State, m: Msg)
    requires Core(cfg, s) && MsgOk(cfg, s.hist, s.corrupt, m)
    ensures Core(cfg, Send(s, m))
  {
    hide MsgOk, MetaOk;
    MetaSame(cfg, s, Send(s, m));
    CoreFrame(cfg, s, Send(s, m));
  }

  lemma MetaSame(cfg: Config, s: State, s': State)
    requires MetaOk(cfg, s) && s'.meta.objects == s.meta.objects && s'.meta.names == s.meta.names
    requires s'.hist == s.hist
    ensures MetaOk(cfg, s')
  {
    hide ObjOk;
  }

  // ---- Creating an object ----

  lemma {:induction false} BirthAt(id: Bytes, data: Bytes, plan: seq<ChunkInfo>, k: nat)
    requires k < |plan|
    requires forall i, j :: 0 <= i < j < |plan| ==> plan[i].chunkId != plan[j].chunkId
    ensures plan[k].chunkId in Births(id, data, plan)
    ensures Births(id, data, plan)[plan[k].chunkId] ==
            Birth(id, k, Slice(data, TotalSize(plan[..k]), plan[k].size))
  {
    hide Slice, TotalSize;
    var n := |plan| - 1;
    if k < n {
      BirthAt(id, data, plan[..n], k);
      assert plan[..n][..k] == plan[..k];
    }
  }

  lemma {:induction false} BirthKey(id: Bytes, data: Bytes, plan: seq<ChunkInfo>, c: Bytes)
    returns (k: nat)
    requires c in Births(id, data, plan)
    ensures k < |plan| && plan[k].chunkId == c
  {
    hide Slice, TotalSize;
    var n := |plan| - 1;
    if plan[n].chunkId == c {
      k := n;
    } else {
      k := BirthKey(id, data, plan[..n], c);
    }
  }

  /** Prefix sums of a plan stay within the data. */
  lemma TotalPrefix(plan: seq<ChunkInfo>, k: nat)
    requires k < |plan|
    ensures TotalSize(plan[..k]) + plan[k].size == TotalSize(plan[..k + 1]) <= TotalSize(plan)
  {
    assert plan[..k + 1][..k] == plan[..k];
    assert plan == plan[..k + 1] + plan[k + 1..];
    TotalSizeConcat(plan[..k + 1], plan[k + 1..]);
  }

  lemma SliceExtends(data: Bytes, a: nat, b: nat)
    requires a <= b <= |data|
    ensures data[..a] + Slice(data, a, b - a) == data[..b]
  {
  }

  /** Cutting the data at the chunk sizes and joining the pieces gives the data back. */
  lemma {:induction false} JoinSlices(h: History, data: Bytes, plan: seq<ChunkInfo>, n: nat)
    requires n <= |plan| && TotalSize(plan) == |data|
    requires forall k :: 0 <= k < |plan| ==> plan[k].chunkId in h.births
    requires forall k :: 0 <= k < |plan| ==>
               h.births[plan[k].chunkId].bytes == Slice(data, TotalSize(plan[..k]), plan[k].size)
    ensures TotalSize(plan[..n]) <= |data|
    ensures Join(h, plan[..n]) == data[..TotalSize(plan[..n])]
  {
    hide Slice;
    if n > 0 {
      JoinSlices(h, data, plan, n - 1);
      TotalPrefix(plan, n - 1);
      assert plan[..n][..n - 1] == plan[..n - 1];
      SliceExtends(data, TotalSize(plan[..n - 1]), TotalSize(plan[..n]));
    }
  }

  /** The history after an object has been planned. */
  ghost function WithPlan(h: History, id: Bytes, name: Bytes, data: Bytes, plan: seq<ChunkInfo>)
    : History
  {
    History(h.datas[id := data], h.names[id := name], h.births + Births(id, data, plan))
  }

  ghost predicate FreshPlan(cfg: Config, h: History, id: Bytes, data: Bytes,
                            plan: seq<ChunkInfo>)
  {
    && Shape(cfg, |data|, plan)
    && |id| < U32_LIMIT && id !in h.datas && id !in h.names && |data| < U64_LIMIT
    && TotalSize(plan) == |data|
    && (forall i, j :: 0 <= i < j < |plan| ==> plan[i].chunkId != plan[j].chunkId)
    && (forall k :: 0 <= k < |plan| ==>
          && plan[k].chunkId !in h.births && |plan[k].chunkId| < U32_LIMIT
          && plan[k] == Planned(id, plan[k].chunkId, k, plan[k].size))
  }

  lemma BornChunk(cfg: Config, h: History, id: Bytes, name: Bytes, data: Bytes,
                  plan: seq<ChunkInfo>, k: nat)
    requires FreshPlan(cfg, h, id, data, plan) && k < |plan|
    ensures ChunkOk(cfg, WithPlan(h, id, name, data, plan), plan[k])
    ensures WithPlan(h, id, name, data, plan).births[plan[k].chunkId] ==
            Birth(id, k, Slice(data, TotalSize(plan[..k]), plan[k].size))
  {
    BirthAt(id, data, plan, k);
    TotalPrefix(plan, k);
  }

  lemma BornHistory(cfg: Config, h: History, id: Bytes, name: Bytes, data: Bytes,
                    plan: seq<ChunkInfo>)
    requires FreshPlan(cfg, h, id, data, plan) && HistOk(h)
    ensures Grows(h, WithPlan(h, id, name, data, plan))
    ensures HistOk(WithPlan(h, id, name, data, plan))
  {
    var h' := WithPlan(h, id, name, data, plan);
    forall c | c in h'.births
      ensures c in h.births ==> h'.births[c] == h.births[c]
      ensures |c| < U32_LIMIT && |h'.births[c].objectId| < U32_LIMIT &&
              |h'.births[c].bytes| < U64_LIMIT
    {
      if c in Births(id, data, plan) {
        var k := BirthKey(id, data, plan, c);
        BirthAt(id, data, plan, k);
        TotalPrefix(plan, k);
      }
    }
  }

  lemma BornPlan(cfg: Config, h: History, id: Bytes, name: Bytes, data: Bytes,
                 plan: seq<ChunkInfo>)
    requires FreshPlan(cfg, h, id, data, plan)
    ensures PutOk(cfg, WithPlan(h, id, name, data, plan), PutState(id, name, data, plan, 0, 0, true))
  {
    var h' := WithPlan(h, id, name, data, plan);
    forall k | 0 <= k < |plan|
      ensures ChunkOk(cfg, h', plan[k])
      ensures plan[k].objectId == id
      ensures h'.births[plan[k].chunkId] ==
              Birth(id, k, Slice(data, TotalSize(plan[..k]), plan[k].size))
    {
      BornChunk(cfg, h, id, name, data, plan, k);
    }
    assert plan[..0] == [];
  }

  /** A fresh plan puts the whole object together again. */
  lemma BornObject(cfg: Config, h: History, obj: ObjectInfo, data: Bytes)
    requires FreshPlan(cfg, h, obj.objectId, data, obj.chunks) && obj.size == |data|
    ensures ObjOk(cfg, WithPlan(h, obj.objectId, obj.filename, data, obj.chunks), obj)
  {
    hide Slice, Births;
    var id, name, plan := obj.objectId, obj.filename, obj.chunks;
    var h' := WithPlan(h, id, name, data, plan);
    BornPlan(cfg, h, id, name, data, plan);
    JoinSlices(h', data, plan, |plan|);
    assert plan[..|plan|] == plan;
    assert data[..|data|] == data;
  }

  /** The planner's output is fresh when its ids are. */
  lemma PlanIsFresh(cfg: Config, s: State, data: Bytes, id: Bytes, uuids: seq<Bytes>)
    requires ConfigOk(cfg) && FreshIds(cfg, s, data, id, uuids)
    ensures FreshPlan(cfg, s.hist, id, data, Plan(id, |data|, cfg.chunkSize, uuids))
  {
    var plan := Plan(id, |data|, cfg.chunkSize, uuids);
    hide Plan;
    PlanTotal(plan, id, |data|, cfg.chunkSize, uuids);
  }

  lemma ServeCreateOk(cfg: Config, s: State, filename: Bytes, data: Bytes, id: Bytes,
                      uuids: seq<Bytes>)
    requires ConfigOk(cfg) && FreshIds(cfg, s, data, id, uuids)
    requires Core(cfg, s) && CreateMsg(filename, data) in s.sent
    ensures var (s', obj) := ServeCreate(cfg, s, filename, data, id, uuids);
            && Core(cfg, s') && Grows(s.hist, s'.hist)
            && (obj.Some? ==>
                  PutOk(cfg, s'.hist, PutState(id, filename, data, obj.value.chunks, 0, 0, true)))
  {
    hide HistOk, MetaOk, DisksOk, SentOk, DatasOk, PutOk, Births, Plan, FreshPlan, FreshIds, Grows;
    var (s', r) := ServeCreate(cfg, s, filename, data, id, uuids);
    if r.Some? {
      PlanIsFresh(cfg, s, data, id, uuids);
      BornHistory(cfg, s.hist, id, filename, data, r.value.chunks);
      BornPlan(cfg, s.hist, id, filename, data, r.value.chunks);
      CreateMetaOk(cfg, s, s', filename, data, id, uuids);
      CreateDatasOk(cfg, s, s', filename, data, id, uuids);
      CoreFrame(cfg, s, s');
    } else {
      SameHistory(s.hist);
    }
  }

  lemma SameHistory(h: History)
    ensures Grows(h, h)
  {
  }

  lemma CreateDatasOk(cfg: Config, s: State, s': State, filename: Bytes, data: Bytes, id: Bytes,
                      uuids: seq<Bytes>)
    requires cfg.chunkSize > 0 && FreshIds(cfg, s, data, id, uuids) && DatasOk(s)
    requires CreateMsg(filename, data) in s.sent
    requires s' == ServeCreate(cfg, s, filename, data, id, uuids).0
    ensures DatasOk(s')
  {
    hide Births, Plan, FreshIds;
  }

  lemma CreateMetaOk(cfg: Config, s: State, s': State, filename: Bytes, data: Bytes, id: Bytes,
                     uuids: seq<Bytes>)
    requires ConfigOk(cfg) && FreshIds(cfg, s, data, id, uuids)
    requires MetaOk(cfg, s) && HistOk(s.hist) && filename !in s.meta.names
    requires s' == ServeCreate(cfg, s, filename, data, id, uuids).0
    ensures MetaOk(cfg, s')
  {
    var obj := ServeCreate(cfg, s, filename, data, id, uuids).1.value;
    PlanIsFresh(cfg, s, data, id, uuids);
    CreateKeepsTables(s.meta, filename, |data|, cfg.rf, cfg.chunkSize, id, uuids);
    hide ObjOk, Plan, Births, FreshPlan, Tables, PutOk;
    BornObject(cfg, s.hist, obj, data);
    BornHistory(cfg, s.hist, id, filename, data, obj.chunks);
    forall o | o in s'.meta.objects ensures ObjOk(cfg, s'.hist, s'.meta.objects[o]) {
      if o != id {
        ObjGrows(cfg, s.hist, s'.hist, s.meta.objects[o]);
      }
    }
  }

  // ---- Writing, updating and deleting ----

  lemma WriteStorable(cfg: Config, h: History, corrupt: bool, hd: Header, payload: Bytes, now: nat)
    requires WriteOk(cfg, h, corrupt, hd, payload) && now < U64_LIMIT
    ensures Store.Storable(cfg.hash, hd, payload, now)
  {
  }

  lemma ServeWriteOk(cfg: Config, s: State, address: Bytes, hd: Header, payload: Bytes, now: nat,
                     fate: Store.WriteFate)
    requires Core(cfg, s) && WriteOk(cfg, s.hist, s.corrupt, hd, payload) && now < U64_LIMIT
    ensures Core(cfg, ServeWrite(cfg, s, address, hd, payload, now, fate).0)
  {
    var s' := ServeWrite(cfg, s, address, hd, payload, now, fate).0;
    WriteStorable(cfg, s.hist, s.corrupt, hd, payload, now);
    MetaSame(cfg, s, s');
    hide MetaOk, MsgOk, Store.WriteFiles, Store.Storable, Store.Read, Store.ReadAfterWrite;
    Store.AfterWrite(cfg.hash, Disk(s, address), hd, payload, now, fate);
    if !s.corrupt {
      forall a, c ensures DiskOk(cfg, s', a, c) {
        assert DiskOk(cfg, s, a, c);
        if a == address {
          Store.WriteReads(cfg.hash, Disk(s, address), hd, payload, now, fate, c);
        }
      }
    }
  }

  lemma ReplaceKeepsJoin(cfg: Config, h: History, chunks: seq<ChunkInfo>, c: ChunkInfo)
    requires ChunksOk(cfg, h, chunks) && ChunkOk(cfg, h, c)
    ensures var chunks' := ReplaceChunk(chunks, c);
            && |chunks'| == |chunks|
            && ChunksOk(cfg, h, chunks')
            && (forall k :: 0 <= k < |chunks| ==>
                  && chunks'[k].chunkId == chunks[k].chunkId
                  && chunks'[k].chunkIndex == chunks[k].chunkIndex
                  && chunks'[k].objectId == chunks[k].objectId
                  && chunks'[k].size == chunks[k].size
                  && (chunks'[k] == chunks[k] || chunks'[k] == c))
  {
    var chunks' := ReplaceChunk(chunks, c);
    if chunks != [] {
      ReplaceChunkAt(chunks, c, 0);
    }
    forall k | 0 <= k < |chunks|
      ensures ChunkOk(cfg, h, chunks'[k])
      ensures chunks'[k].chunkId == chunks[k].chunkId
      ensures chunks'[k].chunkIndex == chunks[k].chunkIndex
      ensures chunks'[k].objectId == chunks[k].objectId
      ensures chunks'[k].size == chunks[k].size
      ensures chunks'[k] == chunks[k] || chunks'[k] == c
    {
      ReplaceChunkAt(chunks, c, k);
    }
  }

  lemma {:induction false} SameIdsSameJoin(h: History, a: seq<ChunkInfo>, b: seq<ChunkInfo>)
    requires |a| == |b|
    requires forall k :: 0 <= k < |a| ==>
               a[k].chunkId == b[k].chunkId && a[k].chunkId in h.births && a[k].size == b[k].size
    ensures Join(h, a) == Join(h, b)
    ensures TotalSize(a) == TotalSize(b)
  {
    if a != [] {
      SameIdsSameJoin(h, a[..|a| - 1], b[..|b| - 1]);
    }
  }

  /** Every update that the code sends keeps the shape of the plan: same ids, indices and sizes in
      the same order, so the object still spells out its data. */
  lemma UpdateKeepsObj(cfg: Config, h: History, obj: ObjectInfo, c: ChunkInfo)
    requires ObjOk(cfg, h, obj) && ChunkOk(cfg, h, c)
    ensures ObjOk(cfg, h, obj.(chunks := ReplaceChunk(obj.chunks, c)))
  {
    ReplaceKeepsJoin(cfg, h, obj.chunks, c);
    SameIdsSameJoin(h, obj.chunks, ReplaceChunk(obj.chunks, c));
  }

  lemma ServeUpdateOk(cfg: Config, s: State, id: Bytes, c: ChunkInfo)
    requires Core(cfg, s) && MsgOk(cfg, s.hist, s.corrupt, UpdateMsg(id, c))
    ensures Core(cfg, ServeUpdate(s, id, c).0)
  {
    hide HistOk, MetaOk, DisksOk, SentOk, UpdateChunk, ChunkOk;
    UpdateMetaOk(cfg, s, id, c);
    CoreFrame(cfg, s, ServeUpdate(s, id, c).0);
  }

  lemma UpdateMetaOk(cfg: Config, s: State, id: Bytes, c: ChunkInfo)
    requires MetaOk(cfg, s) && ChunkOk(cfg, s.hist, c) && c.objectId == id
    ensures MetaOk(cfg, ServeUpdate(s, id, c).0)
  {
    hide ObjOk, Tables, ChunkOk, ReplaceChunk, HasChunk;
    UpdateKeepsTables(s.meta, id, c);
    if id in s.meta.objects {
      UpdateKeepsObj(cfg, s.hist, s.meta.objects[id], c);
    }
  }

  lemma ServeDeleteOk(cfg: Config, s: State, id: Bytes)
    requires Core(cfg, s)
    ensures Core(cfg, ServeDelete(s, id))
  {
    var s' := ServeDelete(s, id);
    DeleteKeepsTables(s.meta, id);
    hide ObjOk, MsgOk, Tables, HistOk;
    assert MetaOk(cfg, s');
    hide MetaOk;
    CoreFrame(cfg, s, s');
  }

  lemma ServeDeleteChunkOk(cfg: Config, s: State, address: Bytes, id: Bytes, fate: Store.DeleteFate)
    requires Core(cfg, s)
    ensures Core(cfg, ServeDeleteChunk(s, address, id, fate))
  {
    var s' := ServeDeleteChunk(s, address, id, fate);
    MetaSame(cfg, s, s');
    hide MetaOk, MsgOk, Store.DeleteFiles, Store.Read;
    if !s.corrupt {
      forall a, c ensures DiskOk(cfg, s', a, c) {
        assert DiskOk(cfg, s, a, c);
        if a == address {
          Store.DeleteReads(cfg.hash, Disk(s, address), id, fate, c);
        }
      }
    }
  }
}
