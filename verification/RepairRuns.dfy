/** What one repair does to the chunk it publishes, over whole runs: the number of live replicas it
    leaves, and whether it can lower that number. */
module RepairRuns {
  import opened Bytes
  import opened Types
  import opened MetadataStore
  import opened Selection
  import opened Scan
  import opened Protocol
  import opened Integrity
  import opened IntegrityRuns
  import opened Durability
  import opened DurabilityRuns
  import opened Replicas
  import opened Network

  // ---- One repair within a run ----

  ghost predicate AnsweredAt(steps: seq<Step>, states: seq<State>, i: nat, tid: nat) {
    && i < |steps| && i < |states|
    && steps[i].Client? && steps[i].tid == tid && steps[i].c.answered
    && tid in states[i].ops
  }

  /** Operation `tid` selects nodes at step `sel`, writes to them, and its update is served at step
      `n`. */
  ghost predicate RepairOf(cfg: Config, steps: seq<Step>, states: seq<State>, sel: nat, n: nat,
                           tid: nat)
  {
    && RunOf(cfg, steps, states) && sel < n < |steps|
    && AnsweredAt(steps, states, sel, tid) && states[sel].ops[tid].RepairSelect?
    && AnsweredAt(steps, states, n, tid) && states[n].ops[tid].RepairPublish?
    && states[n].ops[tid].repair.todo != []
    && forall j :: sel < j <= n ==>
         tid in states[j].ops && (states[j].ops[tid].RepairWrite? || states[j].ops[tid].RepairPublish?)
  }

  /** Between these steps no node is registered, and none changes its online flag. */
  ghost predicate FlagsFixed(states: seq<State>, from: nat, to: nat) {
    from <= to < |states| &&
    forall j :: from <= j <= to ==> SameFlags(states[from].meta.nodes, states[j].meta.nodes)
  }

  /** Where a repair stands after its selection of `nodes`. */
  ghost predicate Since(op: Op, rs: RepairState, nodes: seq<NodeInfo>) {
    && (op.RepairWrite? || op.RepairPublish?) && op.repair == rs && rs.todo != []
    && exists acks :: Acked(op, nodes, acks)
  }

  ghost predicate Acked(op: Op, nodes: seq<NodeInfo>, acks: seq<bool>)
    requires (op.RepairWrite? || op.RepairPublish?) && op.repair.todo != []
  {
    && |acks| <= |nodes| && op.replicas == Entries(nodes, acks, op.repair.todo[0].version)
    && (op.RepairWrite? ==> op.nodes == nodes && op.i == |acks|)
  }

  lemma SelectBegins(cfg: Config, s: State, tid: nat, c: Choice)
    requires tid in s.ops && s.ops[tid].RepairSelect? && s.ops[tid].repair.todo != []
    requires var op' := RepairStep(cfg, s, tid, c).ops[tid]; op'.RepairWrite? || op'.RepairPublish?
    ensures Since(RepairStep(cfg, s, tid, c).ops[tid], s.ops[tid].repair, c.nodes)
  {
    hide DistinctAddresses;
    assert Acked(RepairStep(cfg, s, tid, c).ops[tid], c.nodes, []);
  }

  lemma WriteGoesOn(cfg: Config, s: State, tid: nat, c: Choice, rs: RepairState,
                    nodes: seq<NodeInfo>)
    requires tid in s.ops && s.ops[tid].RepairWrite? && Since(s.ops[tid], rs, nodes)
    requires var op' := RepairStep(cfg, s, tid, c).ops[tid]; op'.RepairWrite? || op'.RepairPublish?
    ensures Since(RepairStep(cfg, s, tid, c).ops[tid], rs, nodes)
  {
    hide ServeWrite, RepairHeader, Entries, AddReplica;
    var op, op' := s.ops[tid], RepairStep(cfg, s, tid, c).ops[tid];
    var acks :| Acked(op, nodes, acks);
    if op.i >= |nodes| {
      assert Acked(op', nodes, acks);
    } else {
      EntriesStep(nodes, acks, true, rs.todo[0].version);
      EntriesStep(nodes, acks, false, rs.todo[0].version);
      assert Acked(op', nodes, acks + [true]) || Acked(op', nodes, acks + [false]);
    }
  }

  /** After the selection, and up to the update, the replica list holds acknowledged nodes of that
      selection only. */
  lemma {:induction false} SinceSelection(cfg: Config, steps: seq<Step>, states: seq<State>,
                                          sel: nat, n: nat, tid: nat, j: nat)
    requires RepairOf(cfg, steps, states, sel, n, tid) && sel < j <= n
    ensures Since(states[j].ops[tid], states[sel].ops[tid].repair, steps[sel].c.nodes)
  {
    hide Next, Enabled, Since, Inv;
    var s, step := states[j - 1], steps[j - 1];
    assert states[j] == Next(cfg, s, step);
    assert step.Client? && step.tid == tid ==> step == Client(tid, step.c);
    if j == sel + 1 {
      RunInv(cfg, steps, states, sel);
      SelectHasTodo(cfg, s, tid);
      OwnRepairStep(cfg, s, tid, step.c);
      SelectBegins(cfg, s, tid, step.c);
    } else {
      SinceSelection(cfg, steps, states, sel, n, tid, j - 1);
      if step.Client? && step.tid == tid {
        OwnRepairStep(cfg, s, tid, step.c);
        if s.ops[tid].RepairWrite? {
          WriteGoesOn(cfg, s, tid, step.c, states[sel].ops[tid].repair, steps[sel].c.nodes);
        } else {
          PublishEnds(cfg, s, tid, step.c, states[sel].ops[tid].repair, steps[sel].c.nodes);
        }
      } else {
        OthersKeepOp(cfg, s, step, tid);
      }
    }
  }

  lemma SelectHasTodo(cfg: Config, s: State, tid: nat)
    requires Inv(cfg, s) && tid in s.ops && s.ops[tid].RepairSelect?
    ensures s.ops[tid].repair.todo != []
  {
    hide Core, ChunksOk;
    OpOf(cfg, s, tid);
  }

  lemma OwnRepairStep(cfg: Config, s: State, tid: nat, c: Choice)
    requires cfg.chunkSize > 0 && Enabled(cfg, s, Client(tid, c)) && IsRepair(s.ops[tid])
    ensures Next(cfg, s, Client(tid, c)) == RepairStep(cfg, s, tid, c)
  {
    hide RepairStep, PutStep, GetStep, DeleteStep, ClientEnabled;
  }

  lemma PublishEnds(cfg: Config, s: State, tid: nat, c: Choice, rs: RepairState,
                    nodes: seq<NodeInfo>)
    requires tid in s.ops && s.ops[tid].RepairPublish? && Since(s.ops[tid], rs, nodes)
    ensures var op' := RepairStep(cfg, s, tid, c).ops[tid]; !op'.RepairWrite? && !op'.RepairPublish?
  {
    hide ServeUpdate, RepairChunk;
    var chunk := RepairChunk(rs.todo[0], s.ops[tid].replicas);
    CreateNothing(cfg, Send(s, UpdateMsg(chunk.objectId, chunk)), chunk);
  }

  lemma CreateNothing(cfg: Config, s: State, chunk: ChunkInfo)
    ensures ServeUpdate(s, chunk.objectId, chunk).0.ops == s.ops
  {
    hide UpdateChunk;
  }

  // ---- What the served update leaves ----

  /** The record that the update of a repair replaces, and the one it puts there. */
  ghost predicate Replaces(s: State, s': State, before: ChunkInfo, after: ChunkInfo) {
    && after.objectId in s.meta.objects && after.objectId in s'.meta.objects
    && var (was, now) := (s.meta.objects[after.objectId].chunks,
                         s'.meta.objects[after.objectId].chunks);
       && after.chunkIndex < |was| == |now|
       && was[after.chunkIndex] == before && now[after.chunkIndex] == after
       && before.chunkId == after.chunkId
  }

  /** The chunk record that operation `tid` is about to publish. */
  ghost function Published(s: State, tid: nat): ChunkInfo
    requires tid in s.ops && s.ops[tid].RepairPublish? && s.ops[tid].repair.todo != []
  {
    RepairChunk(s.ops[tid].repair.todo[0], s.ops[tid].replicas)
  }

  /** The update finds the chunk. */
  ghost predicate Acknowledged(s: State, chunk: ChunkInfo) {
    chunk.objectId in s.meta.objects &&
    HasChunk(s.meta.objects[chunk.objectId].chunks, chunk.chunkId)
  }

  lemma PublishStep(cfg: Config, s: State, tid: nat, c: Choice)
    requires tid in s.ops && s.ops[tid].RepairPublish? && s.ops[tid].repair.todo != [] && c.answered
    ensures var (s', chunk) := (RepairStep(cfg, s, tid, c), Published(s, tid));
            && s'.meta == UpdateChunk(s.meta, chunk.objectId, chunk).0 && s'.hist == s.hist
            && UpdateMsg(chunk.objectId, chunk) in s'.sent
  {
    hide UpdateChunk, RepairChunk;
  }

  lemma UpdateReplaces(cfg: Config, s: State, s': State, chunk: ChunkInfo)
    requires MetaOk(cfg, s) && ChunkOk(cfg, s.hist, chunk) && chunk.checksum != []
    requires s'.meta == UpdateChunk(s.meta, chunk.objectId, chunk).0
    ensures if Acknowledged(s, chunk)
            then chunk.chunkIndex < |s.meta.objects[chunk.objectId].chunks| &&
                 Replaces(s, s', s.meta.objects[chunk.objectId].chunks[chunk.chunkIndex], chunk)
            else s'.meta == s.meta
  {
    hide Join, TotalSize, Shape, Tables, ReplaceChunk;
    if Acknowledged(s, chunk) {
      var chunks := s.meta.objects[chunk.objectId].chunks;
      assert ObjOk(cfg, s.hist, s.meta.objects[chunk.objectId]);
      var k :| 0 <= k < |chunks| && chunks[k].chunkId == chunk.chunkId;
      assert ChunkOk(cfg, s.hist, chunks[k]);
      assert k == chunk.chunkIndex;
      forall j | 0 <= j < k ensures chunks[j].chunkId != chunk.chunkId {
        assert ChunkOk(cfg, s.hist, chunks[j]);
      }
      ReplaceChunkAt(chunks, chunk, k);
    }
  }

  /** A chunk id occurs in the tables at the one place it was planned for. */
  lemma OnePlace(cfg: Config, s: State, id: Bytes, c: ChunkInfo, chunk: ChunkInfo)
    requires MetaOk(cfg, s) && ChunkOk(cfg, s.hist, chunk) && id in s.meta.objects
    requires c in s.meta.objects[id].chunks && c.chunkId == chunk.chunkId
    ensures id == chunk.objectId && chunk.chunkIndex < |s.meta.objects[id].chunks| &&
            s.meta.objects[id].chunks[chunk.chunkIndex] == c
  {
    hide Join, TotalSize, Shape;
    var obj := s.meta.objects[id];
    assert ObjOk(cfg, s.hist, obj);
    var k :| 0 <= k < |obj.chunks| && obj.chunks[k] == c;
    assert ChunkOk(cfg, s.hist, obj.chunks[k]);
  }

  /** With as many live replicas as required, no order of the scan reports the chunk. */
  lemma LeavesScan(cfg: Config, s': State, chunk: ChunkInfo, order: seq<Bytes>, c: ChunkInfo)
    requires MetaOk(cfg, s') && ChunkOk(cfg, s'.hist, chunk)
    requires chunk.objectId in s'.meta.objects
    requires chunk.chunkIndex < |s'.meta.objects[chunk.objectId].chunks|
    requires s'.meta.objects[chunk.objectId].chunks[chunk.chunkIndex] == chunk
    requires Live(s'.meta.nodes, chunk.replicas) >= cfg.rf
    requires Enumerates(order, s'.meta.objects.Keys) && c in UnderAll(s'.meta, order, cfg.rf)
    ensures c.chunkId != chunk.chunkId
  {
    hide MetaOk, ChunkOk, UnderAll;
    UnderAllHolds(s'.meta, order, cfg.rf, c);
    var id :| id in order && c in s'.meta.objects[id].chunks && Live(s'.meta.nodes, c.replicas) < cfg.rf;
    if c.chunkId == chunk.chunkId {
      OnePlace(cfg, s', id, c, chunk);
    }
  }

  /** The state of things when a repair's update is served. */
  lemma ServedRepair(cfg: Config, steps: seq<Step>, states: seq<State>, sel: nat, n: nat, tid: nat)
    requires RepairOf(cfg, steps, states, sel, n, tid)
    ensures var (s, s', chunk) := (states[n], states[n + 1], Published(states[n], tid));
            && s'.meta == UpdateChunk(s.meta, chunk.objectId, chunk).0
            && s'.meta.nodes == s.meta.nodes && s'.hist == s.hist
            && MetaOk(cfg, s) && MetaOk(cfg, s') && MetaDur(cfg, s)
            && ChunkOk(cfg, s.hist, chunk) && chunk.checksum != []
            && Required(cfg.rf, cfg.policy) <= |chunk.replicas| <= cfg.rf
  {
    hide Next, Enabled, MetaOk, ChunkOk, MetaDur, UpdateChunk, Published, Held;
    var s, c := states[n], steps[n].c;
    assert steps[n] == Client(tid, c);
    assert states[n + 1] == Next(cfg, s, steps[n]);
    OwnRepairStep(cfg, s, tid, c);
    PublishStep(cfg, s, tid, c);
    var chunk := Published(s, tid);
    UpdatesCarryQuorums(cfg, steps, states, n + 1, chunk.objectId, chunk);
    PublishedHash(cfg, states[n + 1].hist, chunk);
    UpdateKeepsNodes(s.meta, chunk);
    InvAt(cfg, steps, states, n);
    InvAt(cfg, steps, states, n + 1);
  }

  lemma PublishedHash(cfg: Config, h: History, chunk: ChunkInfo)
    requires ConfigOk(cfg) && ChunkOk(cfg, h, chunk)
    requires chunk.checksum == cfg.hash(h.births[chunk.chunkId].bytes)
    ensures chunk.checksum != []
  {
  }

  lemma UpdateKeepsNodes(m: Meta, chunk: ChunkInfo)
    ensures UpdateChunk(m, chunk.objectId, chunk).0.nodes == m.nodes
  {
    hide HasChunk, ReplaceChunk;
  }

  lemma InvAt(cfg: Config, steps: seq<Step>, states: seq<State>, n: nat)
    requires RunOf(cfg, steps, states) && n < |states|
    ensures MetaOk(cfg, states[n]) && MetaDur(cfg, states[n])
  {
    hide Next, Enabled, MetaOk, MetaDur, DisksOk, SentOk, OpsOk, SentDur, OpsDur;
    RunInv(cfg, steps, states, n);
    RunDur(cfg, steps, states, n);
  }

  /** The replicas that a repair publishes are live, if no flag changed since it selected them. */
  lemma PublishedAreLive(cfg: Config, steps: seq<Step>, states: seq<State>, sel: nat, n: nat,
                         tid: nat)
    requires RepairOf(cfg, steps, states, sel, n, tid) && FlagsFixed(states, sel, n)
    ensures var replicas := Published(states[n], tid).replicas;
            && Live(states[n].meta.nodes, replicas) == |replicas|
            && DistinctNodes(replicas) && FirstIsPrimary(replicas)
  {
    hide Next, Entries, Live, SameFlags, DistinctNodes, FirstIsPrimary;
    SinceSelection(cfg, steps, states, sel, n, tid, n);
    var op, nodes := states[n].ops[tid], steps[sel].c.nodes;
    var acks :| Acked(op, nodes, acks);
    var version := op.repair.todo[0].version;
    SelectedNodes(cfg, states[sel], tid, steps[sel].c);
    SelectedAreLive(states[sel].meta.nodes, LeastUsed, cfg.rf, nodes, acks, version);
    EntriesDistinct(nodes, acks, version);
    EntriesMade(nodes, acks, version);
    LiveSame(states[sel].meta.nodes, states[n].meta.nodes, op.replicas);
  }

  lemma SelectedNodes(cfg: Config, s: State, tid: nat, c: Choice)
    requires cfg.chunkSize > 0 && tid in s.ops && s.ops[tid].RepairSelect? && c.answered
    requires ClientEnabled(cfg, s, s.ops[tid], c)
    ensures Selectable(s.meta.nodes, LeastUsed, cfg.rf, c.nodes) && DistinctIds(c.nodes)
  {
    hide Enumerates;
  }

  /** An acknowledged repair puts its own record in the place of the chunk's, with at least the
      required number of distinct live nodes, the first of them the primary; and with as many as
      the replication factor, no order of the scan reports the chunk any more. A repair that is
      not acknowledged changes no table. */
  lemma RepairPublishes(cfg: Config, steps: seq<Step>, states: seq<State>, sel: nat, n: nat,
                        tid: nat)
    requires RepairOf(cfg, steps, states, sel, n, tid) && FlagsFixed(states, sel, n)
    ensures var (s, s', chunk) := (states[n], states[n + 1], Published(states[n], tid));
            if !Acknowledged(s, chunk) then s'.meta == s.meta else
            && (exists before :: Replaces(s, s', before, chunk))
            && Required(cfg.rf, cfg.policy) <= Live(s'.meta.nodes, chunk.replicas) ==
               |chunk.replicas|
            && DistinctNodes(chunk.replicas) && FirstIsPrimary(chunk.replicas)
            && (|chunk.replicas| == cfg.rf ==>
                  forall order, c :: Enumerates(order, s'.meta.objects.Keys) &&
                                     c in UnderAll(s'.meta, order, cfg.rf) ==>
                    c.chunkId != chunk.chunkId)
  {
    hide RepairOf, FlagsFixed, MetaOk, MetaDur, ChunkOk, UpdateChunk, UnderAll, Live,
         DistinctNodes, FirstIsPrimary, Published, Acknowledged;
    RepairBounds(cfg, steps, states, sel, n, tid);
    var s, s', chunk := states[n], states[n + 1], Published(states[n], tid);
    ServedRepair(cfg, steps, states, sel, n, tid);
    PublishedAreLive(cfg, steps, states, sel, n, tid);
    UpdateReplaces(cfg, s, s', chunk);
    if Acknowledged(s, chunk) && |chunk.replicas| == cfg.rf {
      forall order, c | Enumerates(order, s'.meta.objects.Keys) && c in UnderAll(s'.meta, order, cfg.rf)
        ensures c.chunkId != chunk.chunkId
      {
        LeavesScan(cfg, s', chunk, order, c);
      }
    }
  }

  lemma RepairBounds(cfg: Config, steps: seq<Step>, states: seq<State>, sel: nat, n: nat, tid: nat)
    requires RepairOf(cfg, steps, states, sel, n, tid)
    ensures sel < n && n + 1 < |states| == |steps| + 1
    ensures tid in states[n].ops && states[n].ops[tid].RepairPublish? &&
            states[n].ops[tid].repair.todo != []
  {
    hide Next, Enabled;
  }

  // ---- Whether it can lower the number of live replicas ----

  /** The record that the update replaces has no more live replicas than the one it puts there. */
  ghost predicate NotLowered(s: State, chunk: ChunkInfo) {
    Acknowledged(s, chunk) && chunk.chunkIndex < |s.meta.objects[chunk.objectId].chunks| ==>
      Live(s.meta.nodes, s.meta.objects[chunk.objectId].chunks[chunk.chunkIndex].replicas) <=
      Live(s.meta.nodes, chunk.replicas)
  }

  /** No record lists more replicas than the replication factor. */
  lemma AtMostFactor(cfg: Config, s: State, id: Bytes, k: nat)
    requires MetaOk(cfg, s) && MetaDur(cfg, s) && id in s.meta.objects
    requires k < |s.meta.objects[id].chunks|
    ensures |s.meta.objects[id].chunks[k].replicas| <= cfg.rf
  {
    hide Held, DistinctReplicas, Tables, Join, TotalSize, Shape;
    var chunk := s.meta.objects[id].chunks[k];
    assert ObjOk(cfg, s.hist, s.meta.objects[id]) && ChunkOk(cfg, s.hist, chunk);
    assert ChunkDur(cfg, s, chunk);
  }

  /** If every selected node must acknowledge, no repair of any run lowers the number, whatever
      other repairs are under way. */
  lemma FullQuorumNeverLowers(cfg: Config, steps: seq<Step>, states: seq<State>, sel: nat, n: nat,
                              tid: nat)
    requires RepairOf(cfg, steps, states, sel, n, tid) && FlagsFixed(states, sel, n)
    requires cfg.policy.All? || cfg.rf <= 2
    ensures NotLowered(states[n], Published(states[n], tid))
  {
    hide RepairOf, FlagsFixed, MetaOk, MetaDur, ChunkOk, UpdateChunk, DistinctNodes,
         FirstIsPrimary, Published, HasChunk;
    RepairBounds(cfg, steps, states, sel, n, tid);
    var s, chunk := states[n], Published(states[n], tid);
    ServedRepair(cfg, steps, states, sel, n, tid);
    PublishedAreLive(cfg, steps, states, sel, n, tid);
    if chunk.objectId in s.meta.objects &&
       chunk.chunkIndex < |s.meta.objects[chunk.objectId].chunks|
    {
      AtMostFactor(cfg, s, chunk.objectId, chunk.chunkIndex);
    }
  }

  /** Operation `tid` got its chunks from a scan at step `scan`. */
  ghost predicate ScannedAt(steps: seq<Step>, states: seq<State>, scan: nat, tid: nat) {
    AnsweredAt(steps, states, scan, tid) && states[scan].ops[tid].RepairScan?
  }

  /** All that operation `op` still has to do was in the scan. */
  ghost predicate TodoFrom(op: Op, scanned: seq<ChunkInfo>) {
    op.Ended? || (IsRepair(op) && !op.RepairScan? && forall c :: c in op.repair.todo ==> c in scanned)
  }

  lemma TodoShrinks(cfg: Config, s: State, tid: nat, c: Choice, scanned: seq<ChunkInfo>)
    requires tid in s.ops && IsRepair(s.ops[tid]) && TodoFrom(s.ops[tid], scanned)
    ensures var s' := RepairStep(cfg, s, tid, c); tid in s'.ops && TodoFrom(s'.ops[tid], scanned)
  {
    hide ServeWrite, ServeUpdate, RepairHeader, RepairChunk, Store.Read, DistinctAddresses;
    var rs := s.ops[tid].repair;
    assert rs.todo != [] ==> forall x :: x in rs.todo[1..] ==> x in rs.todo;
    RepairMovesOnly(cfg, s, tid, c);
  }

  lemma {:induction false} TodoScanned(cfg: Config, steps: seq<Step>, states: seq<State>, scan: nat,
                                       tid: nat, j: nat)
    requires RunOf(cfg, steps, states) && ScannedAt(steps, states, scan, tid)
    requires scan < j < |states|
    ensures tid in states[j].ops
    ensures TodoFrom(states[j].ops[tid],
                     ScanAnswer(states[scan].meta, steps[scan].c.order, cfg.rf))
  {
    hide Next, Enabled, ScanAnswer;
    var s, step := states[j - 1], steps[j - 1];
    assert states[j] == Next(cfg, s, step);
    assert step.Client? && step.tid == tid ==> step == Client(tid, step.c);
    if j == scan + 1 {
      OwnRepairStep(cfg, s, tid, step.c);
    } else {
      TodoScanned(cfg, steps, states, scan, tid, j - 1);
      hide TodoFrom;
      if step.Client? && step.tid == tid {
        OwnStepTodo(cfg, s, tid, step.c, ScanAnswer(states[scan].meta, steps[scan].c.order, cfg.rf));
      } else {
        OthersKeepOp(cfg, s, step, tid);
      }
    }
  }

  lemma OwnStepTodo(cfg: Config, s: State, tid: nat, c: Choice, scanned: seq<ChunkInfo>)
    requires cfg.chunkSize > 0 && Enabled(cfg, s, Client(tid, c)) && TodoFrom(s.ops[tid], scanned)
    ensures var s' := Next(cfg, s, Client(tid, c)); tid in s'.ops && TodoFrom(s'.ops[tid], scanned)
  {
    hide PutStep, GetStep, RepairStep, ClientEnabled;
    if IsRepair(s.ops[tid]) {
      TodoShrinks(cfg, s, tid, c, scanned);
    }
  }

  /** What a scan reported had too few live replicas. */
  lemma ScannedIsShort(m: Meta, order: seq<Bytes>, rf: nat, c: ChunkInfo)
    requires c in ScanAnswer(m, order, rf)
    ensures Live(m.nodes, c.replicas) < rf
  {
    hide UnderAll, Live;
    UnderAllHolds(m, order, rf, c);
  }

  /** The repair publishes over the very record that its scan reported. */
  ghost predicate RecordUnchanged(s: State, tid: nat)
    requires tid in s.ops && s.ops[tid].RepairPublish? && s.ops[tid].repair.todo != []
  {
    var c := s.ops[tid].repair.todo[0];
    c.objectId in s.meta.objects && c.chunkIndex < |s.meta.objects[c.objectId].chunks| &&
    s.meta.objects[c.objectId].chunks[c.chunkIndex] == c
  }

  /** A repair that publishes over the record it scanned, with no flag changed since the scan,
      does not lower the number if all must acknowledge or the replication factor is at most 4. */
  lemma UndisturbedNeverLowers(cfg: Config, steps: seq<Step>, states: seq<State>, scan: nat,
                               sel: nat, n: nat, tid: nat)
    requires RepairOf(cfg, steps, states, sel, n, tid) && scan < sel
    requires ScannedAt(steps, states, scan, tid) && FlagsFixed(states, scan, n)
    requires RecordUnchanged(states[n], tid)
    requires cfg.policy.All? || cfg.rf <= 4
    ensures NotLowered(states[n], Published(states[n], tid))
  {
    hide Next, Enabled, MetaOk, MetaDur, ChunkOk, UpdateChunk, Live, DistinctNodes, FirstIsPrimary,
         Acknowledged, SameFlags, ScanAnswer;
    RepairBounds(cfg, steps, states, sel, n, tid);
    var s, c := states[n], states[n].ops[tid].repair.todo[0];
    FlagsFixedLater(states, scan, sel, n);
    ServedRepair(cfg, steps, states, sel, n, tid);
    PublishedAreLive(cfg, steps, states, sel, n, tid);
    TodoScanned(cfg, steps, states, scan, tid, n);
    ScannedIsShort(states[scan].meta, steps[scan].c.order, cfg.rf, c);
    LiveSame(states[scan].meta.nodes, s.meta.nodes, c.replicas);
  }

  lemma FlagsFixedLater(states: seq<State>, from: nat, mid: nat, to: nat)
    requires FlagsFixed(states, from, to) && from <= mid <= to
    ensures FlagsFixed(states, mid, to)
  {
    forall j | mid <= j <= to ensures SameFlags(states[mid].meta.nodes, states[j].meta.nodes) {
      assert SameFlags(states[from].meta.nodes, states[mid].meta.nodes);
      assert SameFlags(states[from].meta.nodes, states[j].meta.nodes);
    }
  }
}
