/** Re-replication (src/replication/replication_manager.cpp and src/recovery/recovery_manager.cpp),
    as loops over the shared cluster state. */
module Recovery {
  import opened Bytes
  import opened Types
  import opened ChunkFormat
  import opened MetadataStore
  import opened Scan
  import opened Selection
  import opened Protocol
  import opened Network
  import opened Integrity
  import opened Durability
  import opened DurabilityRuns
  import opened Replicas

  // ---- Fetching ----

  /** State `k` of the run served the chunk from its replica `r`. */
  ghost predicate ReadAt(cfg: Config, states: seq<State>, k: nat, chunk: ChunkInfo, r: nat,
                         data: Bytes)
  {
    && k < |states| && r < |chunk.replicas|
    && var read := Store.Read(cfg.hash, Disk(states[k], chunk.replicas[r].address), chunk.chunkId);
       read.Some? && read.value.1 == data
  }

  /** Replica `r` was asked for the chunk, from step `from` on, and did not serve it. */
  ghost predicate NotServed(cfg: Config, steps: seq<Step>, states: seq<State>, from: nat, tid: nat,
                            rs: RepairState, r: nat)
    requires rs.todo != [] && r < |rs.todo[0].replicas|
  {
    exists k :: from <= k < |steps| && AskedAt(cfg, steps, states, k, tid, rs, r)
  }

  ghost predicate AskedAt(cfg: Config, steps: seq<Step>, states: seq<State>, k: int, tid: nat,
                          rs: RepairState, r: nat)
    requires rs.todo != [] && r < |rs.todo[0].replicas|
  {
    && Own(steps, tid, k) && k < |states| && tid in states[k].ops
    && states[k].ops[tid] == RepairFetch(rs, r)
    && (!steps[k].c.answered ||
        Store.Read(cfg.hash, Disk(states[k], rs.todo[0].replicas[r].address),
                   rs.todo[0].chunkId).None?)
  }

  /** Every replica but those on the excluded node was asked and did not serve the chunk. */
  ghost predicate NoneServed(cfg: Config, steps: seq<Step>, states: seq<State>, from: nat, tid: nat,
                             rs: RepairState, n: nat)
  {
    && rs.todo != [] && n <= |rs.todo[0].replicas|
    && forall r :: 0 <= r < n && rs.todo[0].replicas[r].nodeId != rs.exclude ==>
         NotServed(cfg, steps, states, from, tid, rs, r)
  }

  lemma NoneServedOn(cfg: Config, steps: seq<Step>, states: seq<State>, steps': seq<Step>,
                     states': seq<State>, from: nat, tid: nat, rs: RepairState, n: nat)
    requires NoneServed(cfg, steps, states, from, tid, rs, n)
    requires steps <= steps' && states <= states'
    ensures NoneServed(cfg, steps', states', from, tid, rs, n)
  {
    hide Store.Read;
    forall r | 0 <= r < n && rs.todo[0].replicas[r].nodeId != rs.exclude
      ensures NotServed(cfg, steps', states', from, tid, rs, r)
    {
      var k :| from <= k < |steps| && AskedAt(cfg, steps, states, k, tid, rs, r);
      assert steps'[k] == steps[k] && states'[k] == states[k];
      assert AskedAt(cfg, steps', states', k, tid, rs, r);
    }
  }

  lemma OneMoreNotServed(cfg: Config, steps: seq<Step>, states: seq<State>, from: nat, later: nat,
                         tid: nat, rs: RepairState, n: nat)
    requires NoneServed(cfg, steps, states, from, tid, rs, n) && n < |rs.todo[0].replicas|
    requires rs.todo[0].replicas[n].nodeId != rs.exclude ==>
               NotServed(cfg, steps, states, later, tid, rs, n)
    requires from <= later
    ensures NoneServed(cfg, steps, states, from, tid, rs, n + 1)
  {
    hide AskedAt;
  }

  /** Reads the chunk from one of its replicas, never from the excluded node; nothing comes back
      only if all the others were asked and none served it. */
  method FetchChunkFromReplica(w: World, tid: nat, chunk: ChunkInfo, exclude: Bytes,
                               ghost rs: RepairState)
    returns (data: Option<Bytes>, ghost source: nat, ghost at: nat)
    requires w.Valid() && tid in w.s.ops && w.s.ops[tid] == RepairFetch(rs, 0)
    requires rs.todo != [] && chunk == rs.todo[0] && exclude == rs.exclude
    modifies w
    ensures w.Valid() && w.Continues() && tid in w.s.ops
    ensures w.s.ops[tid] == if data.Some? then RepairSelect(rs, data.value) else NextTodo(rs)
    ensures data.Some? ==> w.During(at) && ReadAt(w.cfg, w.states, at, chunk, source, data.value) &&
                           source < |chunk.replicas| && chunk.replicas[source].nodeId != exclude
    ensures data.None? ==>
              NoneServed(w.cfg, w.steps, w.states, old(|w.steps|), tid, rs, |chunk.replicas|)
    ensures |Updates(w.steps, w.states, old(|w.steps|), tid)| == 0
  {
    hide NotServed, Unanswered, Updates, RunOf, NextTodo, Store.Read;
    source, at := 0, 0;
    ghost var from := |w.steps|;
    NoneYet(w.steps, w.states, tid);
    for r := 0 to |chunk.replicas|
      invariant w.Valid() && w.Continues() && tid in w.s.ops
      invariant w.s.ops[tid] == RepairFetch(rs, r)
      invariant |Updates(w.steps, w.states, from, tid)| == 0
      invariant NoneServed(w.cfg, w.steps, w.states, from, tid, rs, r)
    {
      ghost var steps, states := w.steps, w.states;
      data, at := ReadFromReplica(w, tid, chunk, exclude, rs, r);
      UpdatesOn(steps, states, w.steps, w.states, from, tid);
      NoneServedOn(w.cfg, steps, states, w.steps, w.states, from, tid, rs, r);
      if data.Some? {
        source := r;
        return;
      }
      OneMoreNotServed(w.cfg, w.steps, w.states, from, |steps|, tid, rs, r);
    }
    ghost var steps, states := w.steps, w.states;
    EndFetch(w, tid, rs, |chunk.replicas|);
    NoneServedOn(w.cfg, steps, states, w.steps, w.states, from, tid, rs, |chunk.replicas|);
    UpdatesOn(steps, states, w.steps, w.states, from, tid);
    data := None;
  }

  /** One read, without a checksum comparison; the excluded node is passed over. */
  method ReadFromReplica(w: World, tid: nat, chunk: ChunkInfo, exclude: Bytes,
                         ghost rs: RepairState, r: nat)
    returns (data: Option<Bytes>, ghost at: nat)
    requires w.Valid() && tid in w.s.ops && w.s.ops[tid] == RepairFetch(rs, r)
    requires rs.todo != [] && chunk == rs.todo[0] && exclude == rs.exclude
    requires r < |chunk.replicas|
    modifies w
    ensures w.Valid() && w.Continues() && tid in w.s.ops && w.During(at)
    ensures w.s.ops[tid] == if data.Some? then RepairSelect(rs, data.value)
                            else RepairFetch(rs, r + 1)
    ensures data.Some? ==> ReadAt(w.cfg, w.states, at, chunk, r, data.value) &&
                           chunk.replicas[r].nodeId != exclude
    ensures data.None? && chunk.replicas[r].nodeId != exclude ==>
              NotServed(w.cfg, w.steps, w.states, old(|w.steps|), tid, rs, r)
    ensures |Updates(w.steps, w.states, old(|w.steps|), tid)| == 0
  {
    hide Unanswered, Updates, RunOf, ClientEnabled, Store.Read;
    var s, c := w.Call(tid);
    at := |w.states| - 2;
    data := None;
    if chunk.replicas[r].nodeId != exclude {
      var read := Store.Read(w.cfg.hash, Disk(s, chunk.replicas[r].address), chunk.chunkId);
      data := if c.answered && read.Some? then Some(read.value.1) else None;
    }
    assert Own(w.steps, tid, |w.steps| - 1);
    assert data.None? && chunk.replicas[r].nodeId != exclude ==>
             AskedAt(w.cfg, w.steps, w.states, |w.steps| - 1, tid, rs, r);
  }

  method EndFetch(w: World, tid: nat, ghost rs: RepairState, ghost r: nat)
    requires w.Valid() && tid in w.s.ops && w.s.ops[tid] == RepairFetch(rs, r)
    requires rs.todo != [] && r >= |rs.todo[0].replicas|
    modifies w
    ensures w.Valid() && w.Continues() && tid in w.s.ops && w.s.ops[tid] == NextTodo(rs)
    ensures |Updates(w.steps, w.states, old(|w.steps|), tid)| == 0
  {
    hide Unanswered, Updates, RunOf, ClientEnabled, Store.Read, NextTodo;
    var at, c := w.Call(tid);
  }

  // ---- Replicating ----

  /** The nodes come from the node table of state `at` of the run. */
  method SelectNodes(w: World, tid: nat, ghost rs: RepairState, ghost bytes: Bytes)
    returns (nodes: seq<NodeInfo>, ghost at: nat)
    requires w.Valid() && tid in w.s.ops && w.s.ops[tid] == RepairSelect(rs, bytes)
    modifies w
    ensures w.Valid() && w.Continues() && tid in w.s.ops && w.During(at)
    ensures Selectable(w.states[at].meta.nodes, LeastUsed, w.cfg.rf, nodes)
    ensures w.s.ops[tid] == if nodes == [] then NextTodo(rs)
                            else RepairWrite(rs, bytes, nodes, 0, [])
    ensures |Updates(w.steps, w.states, old(|w.steps|), tid)| == 0
  {
    hide Unanswered, Updates, RunOf, NextTodo, DistinctAddresses;
    var s, c := w.Call(tid);
    at := |w.states| - 2;
    nodes := if c.answered then c.nodes else [];
  }

  /** The node that runs the recovery is reached at its own address, every other one at the address
      in the table; the entry, if the write is acknowledged, records the selected node. */
  method WriteReplica(w: World, tid: nat, node: NodeInfo, local: NodeInfo, chunk: ChunkInfo,
                      data: Bytes, ghost op: Op)
    returns (ok: bool, ghost stamp: nat)
    requires w.Valid() && tid in w.s.ops && w.s.ops[tid] == op && op.RepairWrite?
    requires op.repair.todo != [] && chunk == op.repair.todo[0] && local == op.repair.local
    requires op.i < |op.nodes| && node == op.nodes[op.i] && data == op.bytes
    modifies w
    ensures w.Valid() && w.Continues() && tid in w.s.ops
    ensures w.s.ops[tid] ==
            RepairWrite(op.repair, op.bytes, op.nodes, op.i + 1,
                        if ok then AddReplica(op.replicas, node, chunk.version) else op.replicas)
    ensures WriteMsg(if node.id == local.id then local.address else node.address,
                     Header(chunk.chunkId, chunk.objectId, chunk.version, |data|, w.cfg.hash(data), stamp),
                     data) in w.s.sent
    ensures node.id == local.id ==> stamp == 0
    ensures |Updates(w.steps, w.states, old(|w.steps|), tid)| == 0
  {
    hide Unanswered, Updates, RunOf, ClientEnabled, ServeWrite;
    var s, c := w.Call(tid);
    var address := if node.id == local.id then local.address else node.address;
    var time := if node.id == local.id then 0 else c.now;
    var h := Header(chunk.chunkId, chunk.objectId, chunk.version, |data|, w.cfg.hash(data), time);
    var s1 := Send(s, WriteMsg(address, h, data));
    ok := c.answered && ServeWrite(w.cfg, s1, address, h, data, c.now, c.wfate).1;
    ServersKeepOps(w.cfg, s1, address, h, data, c.now, c.wfate, [], chunk);
    stamp := time;
  }

  method WriteReplicas(w: World, tid: nat, chunk: ChunkInfo, data: Bytes, nodes: seq<NodeInfo>,
                       local: NodeInfo, ghost rs: RepairState)
    returns (replicas: seq<ReplicaInfo>, successCount: nat, ghost acks: seq<bool>)
    requires w.Valid() && tid in w.s.ops && w.s.ops[tid] == RepairWrite(rs, data, nodes, 0, [])
    requires rs.todo != [] && chunk == rs.todo[0] && local == rs.local
    modifies w
    ensures w.Valid() && w.Continues() && tid in w.s.ops
    ensures w.s.ops[tid] == RepairWrite(rs, data, nodes, |nodes|, replicas)
    ensures successCount == |replicas|
    ensures |acks| == |nodes| && replicas == Entries(nodes, acks, chunk.version)
    ensures |Updates(w.steps, w.states, old(|w.steps|), tid)| == 0
  {
    hide Unanswered, Updates, RunOf, RepairHeader;
    replicas, successCount, acks := [], 0, [];
    var primarySet := false;
    ghost var from := |w.steps|;
    NoneYet(w.steps, w.states, tid);
    for i := 0 to |nodes|
      invariant w.Valid() && w.Continues() && tid in w.s.ops
      invariant w.s.ops[tid] == RepairWrite(rs, data, nodes, i, replicas)
      invariant successCount == |replicas| && (primarySet <==> replicas != [])
      invariant |Updates(w.steps, w.states, from, tid)| == 0
      invariant |acks| == i && replicas == Entries(nodes, acks, chunk.version)
    {
      ghost var steps, states := w.steps, w.states;
      var ok, _ := WriteReplica(w, tid, nodes[i], local, chunk, data, w.s.ops[tid]);
      UpdatesOn(steps, states, w.steps, w.states, from, tid);
      if ok {
        successCount := successCount + 1;
        replicas := replicas + [ReplicaInfo(nodes[i].id, nodes[i].address, !primarySet,
                                            chunk.version)];
        primarySet := true;
      }
      assert (acks + [ok])[..i] == acks;
      acks := acks + [ok];
    }
  }

  method CheckQuorum(w: World, tid: nat, successCount: nat, ghost rs: RepairState,
                     ghost bytes: Bytes, ghost nodes: seq<NodeInfo>,
                     ghost replicas: seq<ReplicaInfo>)
    returns (success: bool)
    requires w.Valid() && tid in w.s.ops
    requires w.s.ops[tid] == RepairWrite(rs, bytes, nodes, |nodes|, replicas)
    requires rs.todo != [] && successCount == |replicas|
    modifies w
    ensures w.Valid() && w.Continues() && tid in w.s.ops
    ensures success <==> |replicas| >= Required(w.cfg.rf, w.cfg.policy)
    ensures success <==> |replicas| >= if w.cfg.policy.All? then w.cfg.rf else w.cfg.rf / 2 + 1
    ensures w.s.ops[tid] == if success then RepairPublish(rs, bytes, replicas) else NextTodo(rs)
    ensures |Updates(w.steps, w.states, old(|w.steps|), tid)| == 0
  {
    hide Unanswered, Updates, RunOf, ClientEnabled, NextTodo;
    var required := if w.cfg.policy.All? then w.cfg.rf else w.cfg.rf / 2 + 1;
    success := successCount >= required;
    var s, c := w.Call(tid);
  }

  /** A successful replication yields at least the required number of distinct nodes, all online
      in state `at` of this call, the one that served the selection; the first is the primary. */
  method ReplicateChunk(w: World, tid: nat, chunk: ChunkInfo, data: Bytes, local: NodeInfo,
                        ghost rs: RepairState)
    returns (success: bool, replicas: seq<ReplicaInfo>, ghost at: nat)
    requires w.Valid() && tid in w.s.ops && w.s.ops[tid] == RepairSelect(rs, data)
    requires rs.todo != [] && chunk == rs.todo[0] && local == rs.local
    modifies w
    ensures w.Valid() && w.Continues() && tid in w.s.ops && w.During(at)
    ensures w.s.ops[tid] == if success then RepairPublish(rs, data, replicas) else NextTodo(rs)
    ensures success ==>
              && Required(w.cfg.rf, w.cfg.policy) <= |replicas| <= w.cfg.rf
              && Live(w.states[at].meta.nodes, replicas) == |replicas|
              && DistinctNodes(replicas) && FirstIsPrimary(replicas)
    ensures success && Live(w.states[at].meta.nodes, chunk.replicas) < w.cfg.rf &&
            (w.cfg.policy.All? || w.cfg.rf <= 4) ==>
              Live(w.states[at].meta.nodes, chunk.replicas) <= Live(w.states[at].meta.nodes, replicas)
    ensures success && |replicas| == w.cfg.rf ==>
              !(Live(w.states[at].meta.nodes, replicas) < w.cfg.rf)
    ensures |Updates(w.steps, w.states, old(|w.steps|), tid)| == 0
  {
    hide Unanswered, Updates, RunOf, DistinctNodes, FirstIsPrimary, NextTodo, Live, Entries;
    replicas := [];
    var nodes;
    ghost var from := |w.steps|;
    nodes, at := SelectNodes(w, tid, rs, data);
    if nodes == [] {
      return false, [], at;
    }
    var successCount;
    ghost var acks;
    ghost var steps, states := w.steps, w.states;
    replicas, successCount, acks := WriteReplicas(w, tid, chunk, data, nodes, local, rs);
    UpdatesOn(steps, states, w.steps, w.states, from, tid);
    SelectedAreLive(w.states[at].meta.nodes, LeastUsed, w.cfg.rf, nodes, acks, chunk.version);
    EntriesDistinct(nodes, acks, chunk.version);
    EntriesMade(nodes, acks, chunk.version);
    steps, states := w.steps, w.states;
    success := CheckQuorum(w, tid, successCount, rs, data, nodes, replicas);
    UpdatesOn(steps, states, w.steps, w.states, from, tid);
  }

  // ---- A whole repair ----

  method UpdateChunk(w: World, tid: nat, chunk: ChunkInfo, ghost rs: RepairState,
                     ghost bytes: Bytes, ghost replicas: seq<ReplicaInfo>)
    requires w.Valid() && tid in w.s.ops && w.s.ops[tid] == RepairPublish(rs, bytes, replicas)
    requires rs.todo != [] && chunk == RepairChunk(rs.todo[0], replicas)
    modifies w
    ensures w.Valid() && w.Continues() && tid in w.s.ops && w.s.ops[tid] == NextTodo(rs)
    ensures UpdateMsg(chunk.objectId, chunk) in w.s.sent
    ensures |Updates(w.steps, w.states, old(|w.steps|), tid)| == 1
  {
    hide Unanswered, Updates, RunOf, ClientEnabled, ServeUpdate, NextTodo, RepairChunk;
    var s, c := w.Call(tid);
    ServersKeepOps(w.cfg, Send(s, UpdateMsg(chunk.objectId, chunk)), [],
                   Header([], [], 0, 0, [], 0), [], 0, Store.OpenFailed, chunk.objectId, chunk);
  }

  /** Chunk `c` was fetched from `source`, which is not the excluded node, and `u` was sent for it
      under its next version. */
  ghost predicate Repaired(s: State, c: ChunkInfo, exclude: Bytes, u: ChunkInfo, source: ReplicaInfo) {
    && u == c.(version := (c.version + 1) % U32_LIMIT, replicas := u.replicas) && UpdateMsg(u.objectId, u) in s.sent
    && source in c.replicas && source.nodeId != exclude
  }

  /** One chunk of the scan: fetch, replicate, publish under the next version. */
  method RepairOneChunk(w: World, tid: nat, chunk: ChunkInfo, exclude: Bytes, local: NodeInfo,
                        ghost rs: RepairState)
    returns (repaired: bool, ghost published: ChunkInfo, ghost source: ReplicaInfo)
    requires w.Valid() && tid in w.s.ops && w.s.ops[tid] == RepairFetch(rs, 0)
    requires rs.todo != [] && chunk == rs.todo[0] && exclude == rs.exclude && local == rs.local
    modifies w
    ensures w.Valid() && w.Continues() && tid in w.s.ops && w.s.ops[tid] == NextTodo(rs)
    ensures repaired ==>
              && Repaired(w.s, chunk, exclude, published, source)
              && |published.replicas| >= Required(w.cfg.rf, w.cfg.policy)
    ensures |Updates(w.steps, w.states, old(|w.steps|), tid)| == if repaired then 1 else 0
  {
    hide Unanswered, Updates, RunOf, NextTodo, Live, DistinctNodes, FirstIsPrimary, ReadAt, Required;
    published, source := chunk, NO_REPLICA;
    ghost var from := |w.steps|;
    var data, r, _ := FetchChunkFromReplica(w, tid, chunk, exclude, rs);
    if data.None? {
      return false, chunk, NO_REPLICA;
    }
    source := chunk.replicas[r];
    ghost var steps, states := w.steps, w.states;
    var success, replicas, _ := ReplicateChunk(w, tid, chunk, data.value, local, rs);
    UpdatesOn(steps, states, w.steps, w.states, from, tid);
    if !success {
      return false, chunk, source;
    }
    var update := chunk.(version := (chunk.version + 1) % U32_LIMIT, replicas := replicas);
    steps, states := w.steps, w.states;
    UpdateChunk(w, tid, update, rs, data.value, replicas);
    UpdatesOn(steps, states, w.steps, w.states, from, tid);
    published := update;
    repaired := true;
  }

  const NO_REPLICA: ReplicaInfo := ReplicaInfo([], [], false, 0)

  /** Everything a repair has published so far, and where it read it from. */
  ghost predicate AllRepaired(s: State, chunks: seq<ChunkInfo>, exclude: Bytes,
                              published: seq<ChunkInfo>, sources: seq<ReplicaInfo>)
  {
    && |published| == |sources|
    && forall i :: 0 <= i < |published| ==>
         RepairedFrom(s, chunks, exclude, published[i], sources[i])
  }

  ghost predicate RepairedFrom(s: State, chunks: seq<ChunkInfo>, exclude: Bytes, u: ChunkInfo,
                               source: ReplicaInfo)
  {
    exists c :: c in chunks && Repaired(s, c, exclude, u, source)
  }

  /** A repair of each of the first `n` chunks was begun, in this order. */
  ghost predicate Tried(states: seq<State>, tid: nat, chunks: seq<ChunkInfo>, exclude: Bytes,
                        local: NodeInfo, n: nat)
  {
    n <= |chunks| && forall k :: 0 <= k < n ==> Begun(states, tid, chunks[k..], exclude, local)
  }

  ghost predicate Begun(states: seq<State>, tid: nat, todo: seq<ChunkInfo>, exclude: Bytes,
                        local: NodeInfo)
  {
    exists m :: 0 <= m < |states| && tid in states[m].ops &&
                states[m].ops[tid] == RepairFetch(RepairState(todo, exclude, local), 0)
  }

  lemma TriedOn(states: seq<State>, states': seq<State>, tid: nat, chunks: seq<ChunkInfo>,
                exclude: Bytes, local: NodeInfo, n: nat)
    requires Tried(states, tid, chunks, exclude, local, n) && states <= states'
    ensures Tried(states', tid, chunks, exclude, local, n)
  {
    forall k | 0 <= k < n ensures Begun(states', tid, chunks[k..], exclude, local) {
      assert Begun(states, tid, chunks[k..], exclude, local);
      var m :| 0 <= m < |states| && tid in states[m].ops &&
               states[m].ops[tid] == RepairFetch(RepairState(chunks[k..], exclude, local), 0);
      assert states'[m] == states[m];
    }
  }

  lemma OneMoreTried(states: seq<State>, tid: nat, chunks: seq<ChunkInfo>, exclude: Bytes,
                     local: NodeInfo, n: nat)
    requires Tried(states, tid, chunks, exclude, local, n) && n < |chunks| && states != []
    requires var s := states[|states| - 1];
             tid in s.ops && s.ops[tid] == RepairFetch(RepairState(chunks[n..], exclude, local), 0)
    ensures Tried(states, tid, chunks, exclude, local, n + 1)
  {
    assert Begun(states, tid, chunks[n..], exclude, local);
  }

  method RepairChunks(w: World, tid: nat, chunks: seq<ChunkInfo>, exclude: Bytes, local: NodeInfo)
    returns (recovered: nat, ghost published: seq<ChunkInfo>, ghost sources: seq<ReplicaInfo>)
    requires w.Valid() && tid in w.s.ops
    requires w.s.ops[tid] == RepairFetch(RepairState(chunks, exclude, local), 0)
    modifies w
    ensures w.Valid() && w.Continues() && tid in w.s.ops && w.s.ops[tid] == Ended
    ensures recovered == |published| <= |chunks|
    ensures AllRepaired(w.s, chunks, exclude, published, sources)
    ensures Tried(w.states, tid, chunks, exclude, local, |chunks|)
    ensures recovered == |Updates(w.steps, w.states, old(|w.steps|), tid)|
  {
    hide Tried, Unanswered, Updates, RunOf, AllRepaired, Repaired;
    recovered, published, sources := 0, [], [];
    NoneRepaired(w.s, chunks, exclude);
    ghost var from := |w.steps|;
    NoneYet(w.steps, w.states, tid);
    NoneTried(w.states, tid, chunks, exclude, local);
    for k := 0 to |chunks|
      invariant w.Valid() && w.Continues() && tid in w.s.ops
      invariant w.s.ops[tid] == RepairFetch(RepairState(chunks[k..], exclude, local), 0)
      invariant recovered == |published| <= k
      invariant recovered == |Updates(w.steps, w.states, from, tid)|
      invariant AllRepaired(w.s, chunks, exclude, published, sources)
      invariant Tried(w.states, tid, chunks, exclude, local, k)
    {
      ghost var before, steps, states := w.s, w.steps, w.states;
      OneMoreTried(w.states, tid, chunks, exclude, local, k);
      var repaired;
      ghost var update, source;
      repaired, update, source := RepairOneChunk(w, tid, chunks[k], exclude, local,
                                                 RepairState(chunks[k..], exclude, local));
      UpdatesOn(steps, states, w.steps, w.states, from, tid);
      TriedOn(states, w.states, tid, chunks, exclude, local, k + 1);
      assert chunks[k..][1..] == chunks[k + 1..];
      OneMoreRepaired(before, w.s, chunks, exclude, published, sources, chunks[k], update, source);
      if repaired {
        recovered := recovered + 1;
        published, sources := published + [update], sources + [source];
      }
    }
    ghost var before, steps, states := w.s, w.steps, w.states;
    EndRepair(w, tid, exclude, local);
    TriedOn(states, w.states, tid, chunks, exclude, local, |chunks|);
    UpdatesOn(steps, states, w.steps, w.states, from, tid);
    OneMoreRepaired(before, w.s, chunks, exclude, published, sources, NO_CHUNK, NO_CHUNK, NO_REPLICA);
  }

  lemma NoneTried(states: seq<State>, tid: nat, chunks: seq<ChunkInfo>, exclude: Bytes,
                  local: NodeInfo)
    ensures Tried(states, tid, chunks, exclude, local, 0)
  {
  }

  lemma NoneYet(steps: seq<Step>, states: seq<State>, tid: nat)
    ensures |Updates(steps, states, |steps|, tid)| == 0
  {
    assert Updates(steps, states, |steps|, tid) == {};
  }

  lemma NoneRepaired(s: State, chunks: seq<ChunkInfo>, exclude: Bytes)
    ensures AllRepaired(s, chunks, exclude, [], [])
  {
  }

  lemma OneMoreRepaired(s: State, s': State, chunks: seq<ChunkInfo>, exclude: Bytes,
                        published: seq<ChunkInfo>, sources: seq<ReplicaInfo>, c: ChunkInfo,
                        u: ChunkInfo, source: ReplicaInfo)
    requires AllRepaired(s, chunks, exclude, published, sources) && s.sent <= s'.sent
    ensures AllRepaired(s', chunks, exclude, published, sources)
    ensures c in chunks && Repaired(s', c, exclude, u, source) ==>
              AllRepaired(s', chunks, exclude, published + [u], sources + [source])
  {
    hide Repaired;
    StillRepaired(s, s');
    forall i | 0 <= i < |published|
      ensures RepairedFrom(s', chunks, exclude, published[i], sources[i])
    {
      assert RepairedFrom(s, chunks, exclude, published[i], sources[i]);
    }
  }

  lemma StillRepaired(s: State, s': State)
    requires s.sent <= s'.sent
    ensures forall c, exclude, u, source :: Repaired(s, c, exclude, u, source) ==>
              Repaired(s', c, exclude, u, source)
  {
  }

  method EndRepair(w: World, tid: nat, ghost exclude: Bytes, ghost local: NodeInfo)
    requires w.Valid() && tid in w.s.ops
    requires w.s.ops[tid] == RepairFetch(RepairState([], exclude, local), 0)
    modifies w
    ensures w.Valid() && w.Continues() && tid in w.s.ops && w.s.ops[tid] == Ended
    ensures |Updates(w.steps, w.states, old(|w.steps|), tid)| == 0
  {
    hide Unanswered, Updates, RunOf, ClientEnabled, Store.Read;
    var s, c := w.Call(tid);
  }

  /** The answer is the scan of state `at` of the run, in some order of its table. */
  ghost predicate ScanOf(cfg: Config, states: seq<State>, at: nat, chunks: seq<ChunkInfo>) {
    at < |states| &&
    exists order :: Enumerates(order, states[at].meta.objects.Keys) &&
                    chunks == UnderAll(states[at].meta, order, cfg.rf)
  }

  method GetUnderReplicatedChunks(w: World, tid: nat, ghost rs: RepairState)
    returns (chunks: Option<seq<ChunkInfo>>, ghost at: nat)
    requires w.Valid() && tid in w.s.ops && w.s.ops[tid] == RepairScan(rs)
    modifies w
    ensures w.Valid() && w.Continues() && tid in w.s.ops && w.During(at)
    ensures w.s.ops[tid] ==
            if chunks.Some? then RepairFetch(rs.(todo := chunks.value), 0) else Ended
    ensures chunks.Some? ==> ScanOf(w.cfg, w.states, at, chunks.value)
    ensures |Updates(w.steps, w.states, old(|w.steps|), tid)| == 0
  {
    hide Unanswered, Updates, RunOf, UnderAll;
    var s, c := w.Call(tid);
    at := |w.states| - 2;
    chunks := if c.answered then Some(ScanAnswer(s.meta, c.order, w.cfg.rf)) else None;
  }

  /** A published list is a quorum for the chunk's own slice. */
  ghost predicate Sound(cfg: Config, s: State, u: ChunkInfo) {
    && ChunkOk(cfg, s.hist, u)
    && u.checksum == cfg.hash(s.hist.births[u.chunkId].bytes)
    && RepsOk(cfg, s, u.chunkId, u.replicas)
    && |u.replicas| >= Required(cfg.rf, cfg.policy)
  }

  ghost predicate AllSound(cfg: Config, s: State, published: seq<ChunkInfo>) {
    forall u :: u in published ==> Sound(cfg, s, u)
  }

  lemma RepairedIsSound(cfg: Config, steps: seq<Step>, states: seq<State>, chunks: seq<ChunkInfo>,
                        exclude: Bytes, published: seq<ChunkInfo>, sources: seq<ReplicaInfo>)
    requires RunOf(cfg, steps, states)
    requires AllRepaired(states[|steps|], chunks, exclude, published, sources)
    ensures AllSound(cfg, states[|steps|], published)
  {
    hide Next, Enabled, Sound, RepairChunk;
    forall u | u in published ensures Sound(cfg, states[|steps|], u) {
      var i :| 0 <= i < |published| && published[i] == u;
      assert UpdateMsg(u.objectId, u) in states[|steps|].sent;
      SoundInRun(cfg, steps, states, u);
    }
  }

  lemma SoundInRun(cfg: Config, steps: seq<Step>, states: seq<State>, u: ChunkInfo)
    requires RunOf(cfg, steps, states) && UpdateMsg(u.objectId, u) in states[|steps|].sent
    ensures Sound(cfg, states[|steps|], u)
  {
    hide Next, Enabled, RepsOk;
    UpdatesCarryQuorums(cfg, steps, states, |steps|, u.objectId, u);
  }

  /** Repairs what the scan reports, and fails exactly if the scan is not answered. It counts the
      updates it sent, each for a chunk of that scan and with a sound quorum. */
  method RepairUnderReplicatedChunks(w: World, tid: nat, local: NodeInfo)
    returns (success: bool, recovered: nat, ghost scanned: Option<seq<ChunkInfo>>, ghost at: nat,
             ghost published: seq<ChunkInfo>, ghost sources: seq<ReplicaInfo>)
    requires w.Valid() && tid !in w.s.ops
    modifies w
    ensures w.Valid() && w.Continues() && tid in w.s.ops && w.s.ops[tid] == Ended && w.During(at)
    ensures success <==> scanned.Some?
    ensures !success ==> recovered == 0
    ensures success ==> ScanOf(w.cfg, w.states, at, scanned.value)
    ensures success ==> AllRepaired(w.s, scanned.value, [], published, sources)
    ensures success ==> Tried(w.states, tid, scanned.value, [], local, |scanned.value|)
    ensures recovered == |published| && AllSound(w.cfg, w.s, published)
    ensures recovered == |Updates(w.steps, w.states, old(|w.steps|), tid)|
  {
    hide Tried, Unanswered, Updates, RunOf, AllRepaired, AllSound, UnderAll, Enumerates;
    recovered, published, sources := 0, [], [];
    ghost var from := |w.steps|;
    w.Begin(tid, RepairScan(RepairState([], [], local)));
    var chunks;
    ghost var steps, states := w.steps, w.states;
    chunks, at := GetUnderReplicatedChunks(w, tid, RepairState([], [], local));
    UpdatesOn(steps, states, w.steps, w.states, from, tid);
    success, scanned := chunks.Some?, chunks;
    if success {
      steps, states := w.steps, w.states;
      recovered, published, sources := RepairChunks(w, tid, chunks.value, [], local);
      UpdatesOn(steps, states, w.steps, w.states, from, tid);
    } else {
      NoneRepaired(w.s, [], []);
    }
    RepairedIsSound(w.cfg, w.steps, w.states, if success then chunks.value else [], [], published,
                    sources);
  }

  /** The node is not registered, or registered and offline. */
  ghost predicate Down(m: Meta, id: Bytes) {
    id in m.nodes ==> !m.nodes[id].online
  }

  /** The request that takes a node offline. */
  method SetOffline(w: World, tid: nat, failed: Bytes)
    requires w.Valid() && tid in w.s.ops
    modifies w
    ensures w.Valid() && w.Continues() && tid in w.s.ops && w.s.ops[tid] == old(w.s.ops[tid])
    ensures |w.states| == old(|w.states|) + 1 && Down(w.s.meta, failed)
    ensures Updates(w.steps, w.states, old(|w.steps|), tid) == {}
  {
    RunConfig(w.cfg, w.steps, w.states);
    hide RunOf;
    var step := ChangeNodes(MarkOffline(w.s.meta, failed).0.nodes);
    OwnStays(w.steps, step, tid);
    w.Do(step);
  }

  /** A scan of a state in which the failed node is down reports all its chunks. */
  lemma ScanFindsAll(cfg: Config, states: seq<State>, at: nat, chunks: seq<ChunkInfo>, failed: Bytes)
    requires ScanOf(cfg, states, at, chunks) && Down(states[at].meta, failed)
    ensures forall c :: Affected(states[at].meta, failed, cfg.rf, c) ==> c in chunks
  {
    hide UnderAll, Affected;
    var order :| Enumerates(order, states[at].meta.objects.Keys) &&
                 chunks == UnderAll(states[at].meta, order, cfg.rf);
    forall c | Affected(states[at].meta, failed, cfg.rf, c) ensures c in chunks {
      AffectedAreScanned(states[at].meta, order, cfg.rf, failed, c);
    }
  }

  method BeginRecovery(w: World, tid: nat, failed: Bytes, marked: bool, local: NodeInfo)
    requires w.Valid() && tid !in w.s.ops
    modifies w
    ensures w.Valid() && w.Continues() && tid in w.s.ops
    ensures w.s.ops[tid] == RepairScan(RepairState([], failed, local))
    ensures old(|w.states|) < |w.states| && (marked ==> Down(w.s.meta, failed))
    ensures |Updates(w.steps, w.states, old(|w.steps|), tid)| == 0
  {
    hide Unanswered, Updates, RunOf, Down;
    ghost var from := |w.steps|;
    w.Begin(tid, RepairScan(RepairState([], failed, local)));
    if marked {
      ghost var steps, states := w.steps, w.states;
      SetOffline(w, tid, failed);
      UpdatesOn(steps, states, w.steps, w.states, from, tid);
    }
  }

  /** Takes the failed node offline (a request that may be lost), then repairs without reading
      from it. Unless somebody brings the node back before the scan, the scan reports every chunk
      that lists it among at most as many replicas as are wanted. A failed scan counts as an empty
      one: the result is always a success. */
  method RecoverFailedNode(w: World, tid: nat, failed: Bytes, marked: bool, local: NodeInfo)
    returns (success: bool, recovered: nat, ghost scanned: Option<seq<ChunkInfo>>, ghost at: nat,
             ghost published: seq<ChunkInfo>, ghost sources: seq<ReplicaInfo>, ghost mark: nat)
    requires w.Valid() && tid !in w.s.ops
    modifies w
    ensures w.Valid() && w.Continues() && tid in w.s.ops && w.s.ops[tid] == Ended && w.During(at)
    ensures success && (scanned.None? ==> recovered == 0)
    ensures scanned.Some? ==> ScanOf(w.cfg, w.states, at, scanned.value)
    ensures scanned.Some? ==> AllRepaired(w.s, scanned.value, failed, published, sources)
    ensures scanned.Some? ==> Tried(w.states, tid, scanned.value, failed, local, |scanned.value|)
    ensures recovered == |published| && AllSound(w.cfg, w.s, published)
    ensures marked ==> w.During(mark) && mark <= at && Down(w.states[mark].meta, failed)
    ensures scanned.Some? && Down(w.states[at].meta, failed) ==>
              forall c :: Affected(w.states[at].meta, failed, w.cfg.rf, c) ==> c in scanned.value
    ensures recovered == |Updates(w.steps, w.states, old(|w.steps|), tid)|
  {
    hide Tried, Unanswered, Updates, RunOf, AllRepaired, AllSound, UnderAll, Enumerates, Affected, Down;
    recovered, published, sources := 0, [], [];
    ghost var from := |w.steps|;
    BeginRecovery(w, tid, failed, marked, local);
    mark := |w.states| - 1;
    var chunks;
    ghost var steps, states := w.steps, w.states;
    chunks, at := GetUnderReplicatedChunks(w, tid, RepairState([], failed, local));
    UpdatesOn(steps, states, w.steps, w.states, from, tid);
    scanned := chunks;
    if chunks.Some? {
      if Down(w.states[at].meta, failed) {
        ScanFindsAll(w.cfg, w.states, at, chunks.value, failed);
      }
      steps, states := w.steps, w.states;
      recovered, published, sources := RepairChunks(w, tid, chunks.value, failed, local);
      UpdatesOn(steps, states, w.steps, w.states, from, tid);
    } else {
      NoneRepaired(w.s, [], failed);
    }
    RepairedIsSound(w.cfg, w.steps, w.states, if chunks.Some? then chunks.value else [], failed,
                    published, sources);
    success := true;
  }
}
