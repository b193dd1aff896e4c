/** The replicated store as one step system: the metadata tables, the directory of every storage
    node, and any number of put, get, repair and delete operations in flight
    (src/client/storage_client.cpp, src/recovery/recovery_manager.cpp,
    src/replication/replication_manager.cpp).

    Every RPC is one step. A request that changes something is added to `sent` when it is issued.
    The caller either gets an answer at once, or gives up; a request that was given up on can
    still take effect at any later time, any number of times (the `Late` steps). A storage node's
    WriteChunk and ReplicateChunk handlers are taken to be `write_chunk`, and its ReadChunk
    handler `read_chunk`, of its chunk store. */
module Protocol {
  import opened Bytes
  import opened Types
  import opened ChunkFormat
  import opened Planner
  import opened MetadataStore
  import opened Selection
  import opened Scan
  import Store = ChunkStore

  /** One cluster configuration, shared by all processes. */
  datatype Config = Config(hash: Hash, rf: nat, policy: WriteAckPolicy, strategy: Strategy,
                           chunkSize: nat)

  ghost predicate ConfigOk(cfg: Config) {
    && 0 < cfg.chunkSize
    && cfg.rf < U32_LIMIT
    && (forall x :: 0 < |cfg.hash(x)| < U32_LIMIT)
  }

  // ---- History: what was ever created ----

  /** The object a chunk id was generated for, its position there, and its slice of the data. */
  datatype Birth = Birth(objectId: Bytes, index: nat, bytes: Bytes)

  /** The data and the file name given to the put that created each object, and the birth of
      every chunk id. */
  datatype History = History(datas: map<Bytes, Bytes>, names: map<Bytes, Bytes>,
                             births: map<Bytes, Birth>)

  // ---- Requests that change something ----

  datatype Msg =
    | CreateMsg(filename: Bytes, data: Bytes)
    | WriteMsg(address: Bytes, header: Header, payload: Bytes)
    | UpdateMsg(objectId: Bytes, chunk: ChunkInfo)
    | DeleteByIdMsg(objectId: Bytes)
    | DeleteByNameMsg(filename: Bytes)
    | DeleteChunkMsg(address: Bytes, chunkId: Bytes)

  // ---- Operations in flight, one constructor per program point ----

  datatype Op =
    // put: `k` chunks are done, `offset` bytes are consumed; `acked` records that every
    // UpdateChunk so far was answered with success (the code itself ignores the answer)
    | PutCreate(filename: Bytes, data: Bytes)
    | PutSelect(put: PutState)
    | PutWrite(put: PutState, nodes: seq<NodeInfo>, i: nat, replicas: seq<ReplicaInfo>)
    | PutPublish(put: PutState, replicas: seq<ReplicaInfo>)
    | PutAbort(put: PutState)
    | PutDone(put: PutState)
    // get: `pieces` are the chunks read so far
    | GetLocate(filename: Bytes)
    | GetRead(obj: ObjectInfo, r: nat, pieces: seq<Bytes>)
    | GetDone(obj: ObjectInfo, pieces: seq<Bytes>)
    // repair: `todo` are the chunks still to be looked at
    | RepairScan(repair: RepairState)
    | RepairFetch(repair: RepairState, r: nat)
    | RepairSelect(repair: RepairState, bytes: Bytes)
    | RepairWrite(repair: RepairState, bytes: Bytes, nodes: seq<NodeInfo>, i: nat,
                  replicas: seq<ReplicaInfo>)
    | RepairPublish(repair: RepairState, bytes: Bytes, replicas: seq<ReplicaInfo>)
    // delete
    | DelLocate(filename: Bytes)
    | DelChunks(obj: ObjectInfo, k: nat, r: nat)
    | DelName(filename: Bytes)
    | DelFinish(objectId: Bytes)
    // every way of ending that needs no further record
    | Ended

  datatype PutState = PutState(objectId: Bytes, filename: Bytes, data: Bytes, plan: seq<ChunkInfo>,
                               k: nat, offset: nat, acked: bool)

  /** `exclude` is the failed node that a recovery must not read from; `local` is the node that
      runs the recovery and reaches itself at its own address. */
  datatype RepairState = RepairState(todo: seq<ChunkInfo>, exclude: Bytes, local: NodeInfo)

  /** `lost` are the addresses and chunks where an acknowledged chunk is or may be missing since it
      was last written there in full: the disk was wiped, the file was published short, or a
      recovery wrote to its own address while recording another. `repeated` says that some selection returned one address twice.
      `corrupt` says that some directory was changed arbitrarily. */
  datatype State = State(
    meta: Meta,
    disks: map<Bytes, Store.Directory>,
    sent: set<Msg>,
    ops: map<nat, Op>,
    hist: History,
    lost: set<(Bytes, Bytes)>,
    repeated: bool,
    corrupt: bool)

  function Disk(s: State, address: Bytes): Store.Directory {
    if address in s.disks then s.disks[address] else map[]
  }

  // ---- What the code sends ----

  /** Bytes `offset .. offset + size` of the object (the slice of the chunk being put). */
  function Slice(data: Bytes, offset: nat, size: nat): Bytes {
    if offset + size <= |data| then data[offset..offset + size] else []
  }

  function PutBytes(p: PutState): Bytes
    requires p.k < |p.plan|
  {
    Slice(p.data, p.offset, p.plan[p.k].size)
  }

  function PutHeader(cfg: Config, p: PutState): Header
    requires p.k < |p.plan|
  {
    Header(p.plan[p.k].chunkId, p.objectId, 1, |PutBytes(p)|, cfg.hash(PutBytes(p)), 0)
  }

  function PutChunk(cfg: Config, p: PutState, replicas: seq<ReplicaInfo>): ChunkInfo
    requires p.k < |p.plan|
  {
    ChunkInfo(p.plan[p.k].chunkId, p.objectId, p.plan[p.k].chunkIndex, p.plan[p.k].size,
              cfg.hash(PutBytes(p)), 1, replicas)
  }

  function PutNext(p: PutState, acked: bool): PutState
    requires p.k < |p.plan|
  {
    p.(k := p.k + 1, offset := p.offset + p.plan[p.k].size, acked := acked)
  }

  /** A write that was acknowledged becomes a replica entry; the first one is the primary. */
  function AddReplica(replicas: seq<ReplicaInfo>, node: NodeInfo, version: nat): seq<ReplicaInfo> {
    replicas + [ReplicaInfo(node.id, node.address, replicas == [], version)]
  }

  /** The replica list that writes to these nodes, acknowledged or not, add up to. */
  function Entries(nodes: seq<NodeInfo>, acks: seq<bool>, version: nat): seq<ReplicaInfo>
    requires |acks| <= |nodes|
  {
    if acks == [] then []
    else
      var n := |acks| - 1;
      var before := Entries(nodes, acks[..n], version);
      if acks[n] then AddReplica(before, nodes[n], version) else before
  }

  function RepairHeader(cfg: Config, c: ChunkInfo, bytes: Bytes, createdAt: nat): Header {
    Header(c.chunkId, c.objectId, c.version, |bytes|, cfg.hash(bytes), createdAt)
  }

  function RepairAddress(local: NodeInfo, node: NodeInfo): Bytes {
    if node.id == local.id then local.address else node.address
  }

  function RepairChunk(c: ChunkInfo, replicas: seq<ReplicaInfo>): ChunkInfo {
    c.(version := (c.version + 1) % U32_LIMIT, replicas := replicas)
  }

  function NextTodo(r: RepairState): Op {
    RepairFetch(if r.todo == [] then r else r.(todo := r.todo[1..]), 0)
  }

  /** The client accepts a chunk whose header carries the checksum in the metadata. */
  predicate ClientAccepts(chunk: ChunkInfo, read: Option<(Header, Bytes)>) {
    read.Some? && (chunk.checksum == [] || read.value.0.checksum == chunk.checksum)
  }

  // ---- What the servers do ----

  /** Fresh ids of the right number and width. */
  predicate FreshIds(cfg: Config, s: State, data: Bytes, id: Bytes, uuids: seq<Bytes>)
    requires cfg.chunkSize > 0
  {
    && |data| < U64_LIMIT
    && |uuids| == ChunkCount(|data|, cfg.chunkSize) <= U32_LIMIT
    && id != [] && |id| < U32_LIMIT
    && id !in s.hist.datas && id !in s.hist.names && id !in s.meta.objects
    && (forall k :: 0 <= k < |uuids| ==> |uuids[k]| < U32_LIMIT && uuids[k] !in s.hist.births)
    && (forall j, k :: 0 <= j < k < |uuids| ==> uuids[j] != uuids[k])
  }

  function Births(id: Bytes, data: Bytes, plan: seq<ChunkInfo>): map<Bytes, Birth> {
    if plan == [] then map[]
    else
      var n := |plan| - 1;
      Births(id, data, plan[..n])
        [plan[n].chunkId := Birth(id, n, Slice(data, TotalSize(plan[..n]), plan[n].size))]
  }

  function ServeCreate(cfg: Config, s: State, filename: Bytes, data: Bytes, id: Bytes,
                             uuids: seq<Bytes>): (State, Option<ObjectInfo>)
    requires cfg.chunkSize > 0 && FreshIds(cfg, s, data, id, uuids)
  {
    var (meta, obj) := CreateObject(s.meta, filename, |data|, cfg.rf, cfg.chunkSize, id, uuids);
    if obj.None? then (s, None) else
    (s.(meta := meta,
        hist := History(s.hist.datas[id := data],
                        s.hist.names[id := filename],
                        s.hist.births + Births(id, data, obj.value.chunks))), obj)
  }

  function ServeWrite(cfg: Config, s: State, address: Bytes, h: Header, payload: Bytes,
                            now: nat, fate: Store.WriteFate): (State, bool)
  {
    var files := Store.WriteFiles(cfg.hash, Disk(s, address), h, payload, now, fate);
    var ok := Store.Accepts(cfg.hash, h, payload) && fate.Published?;
    var short := ok && fate.reach < |Store.Image(cfg.hash, h, payload, now)|;
    (s.(disks := s.disks[address := files],
        lost := if short then s.lost + {(address, h.chunkId)}
                else if ok then s.lost - {(address, h.chunkId)} else s.lost), ok)
  }

  function ServeUpdate(s: State, id: Bytes, chunk: ChunkInfo): (State, bool) {
    var (meta, ok) := UpdateChunk(s.meta, id, chunk);
    (s.(meta := meta), ok)
  }

  function ServeDelete(s: State, id: Bytes): State {
    s.(meta := DeleteObject(s.meta, id).0)
  }

  function ServeDeleteChunk(s: State, address: Bytes, id: Bytes, fate: Store.DeleteFate)
    : State
  {
    s.(disks := s.disks[address := Store.DeleteFiles(Disk(s, address), id, fate)])
  }

  /** LocateObject ignores an empty file name. */
  function Locate(m: Meta, filename: Bytes): Option<ObjectInfo> {
    if filename == [] then None else LocateByFilename(m, filename)
  }

  /** The answer of GetUnderReplicatedChunks when the object table is iterated in this order. */
  function ScanAnswer(m: Meta, order: seq<Bytes>, rf: nat): seq<ChunkInfo> {
    if forall k :: k in order ==> k in m.objects then UnderAll(m, order, rf) else []
  }

  // ---- Steps ----

  /** The environment's choices for one client step; each step uses the ones it needs. */
  datatype Choice = Choice(
    answered: bool,
    id: Bytes,
    uuids: seq<Bytes>,
    now: nat,
    wfate: Store.WriteFate,
    dfate: Store.DeleteFate,
    nodes: seq<NodeInfo>,
    order: seq<Bytes>,
    counter: nat)

  datatype Step =
    | Start(tid: nat, op: Op)
    | Client(tid: nat, c: Choice)
    | LateCreate(filename: Bytes, data: Bytes, c: Choice)
    | LateWrite(address: Bytes, header: Header, payload: Bytes, c: Choice)
    | LateUpdate(objectId: Bytes, chunk: ChunkInfo)
    | LateLookup(filename: Bytes)
    | LateDelete(objectId: Bytes)
    | LateDeleteChunk(address: Bytes, chunkId: Bytes, c: Choice)
    | ChangeNodes(nodes: map<Bytes, NodeInfo>)
    | Wipe(address: Bytes)
    | Damage(address: Bytes, files: Store.Directory)

  predicate Initial(op: Op) {
    || (op.PutCreate? && |op.data| < U64_LIMIT)
    || op.GetLocate?
    || (op.RepairScan? && op.repair.todo == [])
    || op.DelLocate?
  }

  predicate ClientEnabled(cfg: Config, s: State, op: Op, c: Choice)
    requires cfg.chunkSize > 0
  {
    && c.now < U64_LIMIT
    && match op
       case PutCreate(filename, data) => c.answered ==> FreshIds(cfg, s, data, c.id, c.uuids)
       case PutSelect(p) => 
         c.answered ==>
           SelectAnswer(s.meta.nodes, cfg.strategy, cfg.rf, c.order, c.counter, c.nodes)
       case RepairScan(_) => c.answered ==> Enumerates(c.order, s.meta.objects.Keys)
       case RepairSelect(_, _) =>
         c.answered ==> SelectAnswer(s.meta.nodes, LeastUsed, cfg.rf, c.order, c.counter, c.nodes)
       case _ => true
  }

  predicate Enabled(cfg: Config, s: State, step: Step)
    requires cfg.chunkSize > 0
  {
    match step
    case Start(tid, op) => tid !in s.ops && Initial(op)
    case Client(tid, c) => tid in s.ops && ClientEnabled(cfg, s, s.ops[tid], c)
    case LateCreate(filename, data, c) =>
      CreateMsg(filename, data) in s.sent && FreshIds(cfg, s, data, c.id, c.uuids)
    case LateWrite(address, h, payload, c) =>
      WriteMsg(address, h, payload) in s.sent && c.now < U64_LIMIT
    case LateUpdate(id, chunk) => UpdateMsg(id, chunk) in s.sent
    case LateLookup(filename) => DeleteByNameMsg(filename) in s.sent
    case LateDelete(id) => DeleteByIdMsg(id) in s.sent
    case LateDeleteChunk(address, id, c) => DeleteChunkMsg(address, id) in s.sent
    case ChangeNodes(_) => true
    case Wipe(_) => true
    case Damage(_, _) => true
  }

  function Send(s: State, msg: Msg): State {
    s.(sent := s.sent + {msg})
  }

  function SetOp(s: State, tid: nat, op: Op): State {
    s.(ops := s.ops[tid := op])
  }

  function PutStep(cfg: Config, s: State, tid: nat, c: Choice): State
    requires cfg.chunkSize > 0 && tid in s.ops && ClientEnabled(cfg, s, s.ops[tid], c)
  {
    match s.ops[tid]
    case PutCreate(filename, data) =>
      var s1 := Send(s, CreateMsg(filename, data));
      if !c.answered then SetOp(s1, tid, Ended) else
      var (s2, obj) := ServeCreate(cfg, s1, filename, data, c.id, c.uuids);
      if obj.None? then SetOp(s2, tid, Ended)
      else SetOp(s2, tid, PutSelect(PutState(c.id, filename, data, obj.value.chunks, 0, 0, true)))
    case PutSelect(p) =>
      if p.k >= |p.plan| then SetOp(s, tid, PutDone(p))
      else if !c.answered then SetOp(s, tid, Ended)
      else SetOp(s.(repeated := s.repeated || !DistinctAddresses(c.nodes)), tid,
                 PutWrite(p, c.nodes, 0, []))
    case PutWrite(p, nodes, i, replicas) =>
      if p.k >= |p.plan| then s
      else if i >= |nodes| then
        if |replicas| < Required(cfg.rf, cfg.policy) then SetOp(s, tid, PutAbort(p))
        else SetOp(s, tid, PutPublish(p, replicas))
      else
        var address, h, bytes := nodes[i].address, PutHeader(cfg, p), PutBytes(p);
        var s1 := Send(s, WriteMsg(address, h, bytes));
        if !c.answered then SetOp(s1, tid, PutWrite(p, nodes, i + 1, replicas)) else
        var (s2, ok) := ServeWrite(cfg, s1, address, h, bytes, c.now, c.wfate);
        SetOp(s2, tid, PutWrite(p, nodes, i + 1,
                                if ok then AddReplica(replicas, nodes[i], 1) else replicas))
    case PutPublish(p, replicas) =>
      if p.k >= |p.plan| then s else
      var chunk := PutChunk(cfg, p, replicas);
      var s1 := Send(s, UpdateMsg(p.objectId, chunk));
      if !c.answered then SetOp(s1, tid, PutSelect(PutNext(p, false))) else
      var (s2, ok) := ServeUpdate(s1, p.objectId, chunk);
      SetOp(s2, tid, PutSelect(PutNext(p, p.acked && ok)))
    case PutAbort(p) =>
      var s1 := Send(s, DeleteByIdMsg(p.objectId));
      SetOp(if c.answered then ServeDelete(s1, p.objectId) else s1, tid, Ended)
    case _ => s
  }

  function GetStep(cfg: Config, s: State, tid: nat, c: Choice): State
    requires tid in s.ops
  {
    match s.ops[tid]
    case GetLocate(filename) =>
      var obj := Locate(s.meta, filename);
      SetOp(s, tid, if c.answered && obj.Some? then GetRead(obj.value, 0, []) else Ended)
    case GetRead(obj, r, pieces) =>
      if |pieces| >= |obj.chunks| then SetOp(s, tid, GetDone(obj, pieces)) else
      var chunk := obj.chunks[|pieces|];
      if r >= |chunk.replicas| then SetOp(s, tid, Ended) else
      var read := Store.Read(cfg.hash, Disk(s, chunk.replicas[r].address), chunk.chunkId);
      if c.answered && ClientAccepts(chunk, read)
      then SetOp(s, tid, GetRead(obj, 0, pieces + [read.value.1]))
      else SetOp(s, tid, GetRead(obj, r + 1, pieces))
    case _ => s
  }

  function RepairStep(cfg: Config, s: State, tid: nat, c: Choice): State
    requires tid in s.ops
  {
    match s.ops[tid]
    case RepairScan(rs) =>
      SetOp(s, tid,
            if c.answered then RepairFetch(rs.(todo := ScanAnswer(s.meta, c.order, cfg.rf)), 0)
            else Ended)
    case RepairFetch(rs, r) =>
      if rs.todo == [] then SetOp(s, tid, Ended) else
      var chunk := rs.todo[0];
      if r >= |chunk.replicas| then SetOp(s, tid, NextTodo(rs))
      else if chunk.replicas[r].nodeId == rs.exclude then SetOp(s, tid, RepairFetch(rs, r + 1))
      else
        var read := Store.Read(cfg.hash, Disk(s, chunk.replicas[r].address), chunk.chunkId);
        if c.answered && read.Some? then SetOp(s, tid, RepairSelect(rs, read.value.1))
        else SetOp(s, tid, RepairFetch(rs, r + 1))
    case RepairSelect(rs, bytes) =>
      if !c.answered || c.nodes == [] then SetOp(s, tid, NextTodo(rs))
      else SetOp(s.(repeated := s.repeated || !DistinctAddresses(c.nodes)), tid,
                 RepairWrite(rs, bytes, c.nodes, 0, []))
    case RepairWrite(rs, bytes, nodes, i, replicas) =>
      if rs.todo == [] then s
      else if i >= |nodes| then
        SetOp(s, tid, if |replicas| < Required(cfg.rf, cfg.policy) then NextTodo(rs)
                      else RepairPublish(rs, bytes, replicas))
      else
        var chunk, address := rs.todo[0], RepairAddress(rs.local, nodes[i]);
        var h := RepairHeader(cfg, chunk, bytes, if nodes[i].id == rs.local.id then 0 else c.now);
        var s1 := Send(s, WriteMsg(address, h, bytes));
        if !c.answered then SetOp(s1, tid, RepairWrite(rs, bytes, nodes, i + 1, replicas)) else
        var (s2, ok) := ServeWrite(cfg, s1, address, h, bytes, c.now, c.wfate);
        var s3 := if ok && address != nodes[i].address
                  then s2.(lost := s2.lost + {(nodes[i].address, chunk.chunkId)}) else s2;
        SetOp(s3, tid, RepairWrite(rs, bytes, nodes, i + 1,
                                   if ok then AddReplica(replicas, nodes[i], chunk.version)
                                   else replicas))
    case RepairPublish(rs, bytes, replicas) =>
      if rs.todo == [] then s else
      var chunk := RepairChunk(rs.todo[0], replicas);
      var s1 := Send(s, UpdateMsg(chunk.objectId, chunk));
      SetOp(if c.answered then ServeUpdate(s1, chunk.objectId, chunk).0 else s1, tid, NextTodo(rs))
    case _ => s
  }

  function DeleteStep(s: State, tid: nat, c: Choice): State
    requires tid in s.ops
  {
    match s.ops[tid]
    case DelLocate(filename) =>
      var obj := Locate(s.meta, filename);
      SetOp(s, tid, if c.answered && obj.Some? then DelChunks(obj.value, 0, 0) else Ended)
    case DelChunks(obj, k, r) =>
      if k >= |obj.chunks| then SetOp(s, tid, DelName(obj.filename))
      else if r >= |obj.chunks[k].replicas| then SetOp(s, tid, DelChunks(obj, k + 1, 0))
      else
        var address, id := obj.chunks[k].replicas[r].address, obj.chunks[k].chunkId;
        var s1 := Send(s, DeleteChunkMsg(address, id));
        SetOp(if c.answered then ServeDeleteChunk(s1, address, id, c.dfate) else s1,
              tid, DelChunks(obj, k, r + 1))
    case DelName(filename) =>
      var s1 := Send(s, DeleteByNameMsg(filename));
      if c.answered && filename in s.meta.names then
        SetOp(Send(s1, DeleteByIdMsg(s.meta.names[filename])), tid,
              DelFinish(s.meta.names[filename]))
      else SetOp(s1, tid, Ended)
    case DelFinish(id) => SetOp(if c.answered then ServeDelete(s, id) else s, tid, Ended)
    case _ => s
  }

  predicate IsPut(op: Op) {
    op.PutCreate? || op.PutSelect? || op.PutWrite? || op.PutPublish? || op.PutAbort? || op.PutDone?
  }

  predicate IsGet(op: Op) {
    op.GetLocate? || op.GetRead? || op.GetDone?
  }

  predicate IsRepair(op: Op) {
    op.RepairScan? || op.RepairFetch? || op.RepairSelect? || op.RepairWrite? || op.RepairPublish?
  }

  function Next(cfg: Config, s: State, step: Step): State
    requires cfg.chunkSize > 0 && Enabled(cfg, s, step)
  {
    match step
    case Start(tid, op) => SetOp(s, tid, op)
    case Client(tid, c) =>
      var op := s.ops[tid];
      if IsPut(op) then PutStep(cfg, s, tid, c)
      else if IsGet(op) then GetStep(cfg, s, tid, c)
      else if IsRepair(op) then RepairStep(cfg, s, tid, c)
      else DeleteStep(s, tid, c)
    case LateCreate(filename, data, c) => ServeCreate(cfg, s, filename, data, c.id, c.uuids).0
    case LateWrite(address, h, payload, c) =>
      ServeWrite(cfg, s, address, h, payload, c.now, c.wfate).0
    case LateUpdate(id, chunk) => ServeUpdate(s, id, chunk).0
    case LateLookup(filename) =>
      if filename in s.meta.names then Send(s, DeleteByIdMsg(s.meta.names[filename])) else s
    case LateDelete(id) => ServeDelete(s, id)
    case LateDeleteChunk(address, id, c) => ServeDeleteChunk(s, address, id, c.dfate)
    case ChangeNodes(nodes) => s.(meta := s.meta.(nodes := nodes))
    case Wipe(address) =>
      s.(disks := s.disks[address := map[]],
         lost := s.lost + set c | c in s.hist.births :: (address, c))
    case Damage(address, files) => s.(disks := s.disks[address := files], corrupt := true)
  }

  const INIT: State :=
    State(EMPTY, map[], {}, map[], History(map[], map[], map[]), {}, false, false)

  /** A run: a sequence of states, each reached from the one before by an enabled step. */
  ghost predicate RunOf(cfg: Config, steps: seq<Step>, states: seq<State>) {
    && ConfigOk(cfg)
    && |states| == |steps| + 1
    && states[0] == INIT
    && forall i :: 0 <= i < |steps| ==>
         Enabled(cfg, states[i], steps[i]) && states[i + 1] == Next(cfg, states[i], steps[i])
  }
}
