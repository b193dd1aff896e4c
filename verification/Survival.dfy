/** What a completed put is worth: as long as fewer nodes than its quorum are lost, a get returns
    its bytes. */
module Survival {
  import opened Bytes
  import opened Types
  import opened ChunkFormat
  import opened Planner
  import opened MetadataStore
  import opened Protocol
  import opened Integrity
  import opened IntegrityRuns
  import opened Durability
  import opened DurabilityRuns
  import opened Network

  // ---- A get that runs on its own while some nodes do not answer ----

  const DEAF: Choice := Choice(false, [], [], 0, Store.Published(0), Store.Removed, [], [], 0)

  /** The node that the next read of a get goes to. */
  function NextAddress(op: Op): Option<Bytes> {
    if op.GetRead? && |op.pieces| < |op.obj.chunks| &&
       op.r < |op.obj.chunks[|op.pieces|].replicas|
    then Some(op.obj.chunks[|op.pieces|].replicas[op.r].address)
    else None
  }

  /** The metadata service answers, and so does every storage node outside `down`. */
  function AnswerOf(op: Op, down: set<Bytes>): Choice {
    DEAF.(answered := NextAddress(op).None? || NextAddress(op).value !in down)
  }

  function ChunksLeft(op: Op): nat {
    match op
    case GetLocate(_) => 1
    case GetRead(obj, _, pieces) =>
      if |pieces| <= |obj.chunks| then 1 + |obj.chunks| - |pieces| else 0
    case _ => 0
  }

  function ReplicasLeft(op: Op): nat {
    if op.GetRead? && |op.pieces| < |op.obj.chunks| &&
       op.r < |op.obj.chunks[|op.pieces|].replicas|
    then |op.obj.chunks[|op.pieces|].replicas| - op.r
    else 0
  }

  /** Where a get ends up when only it takes steps. */
  ghost function RunGet(cfg: Config, s: State, tid: nat, down: set<Bytes>): Op
    requires tid in s.ops
    decreases s.ops[tid].GetLocate?, ChunksLeft(s.ops[tid]), ReplicasLeft(s.ops[tid])
  {
    var op := s.ops[tid];
    var s' := GetStep(cfg, s, tid, AnswerOf(op, down));
    if op.GetLocate? then RunGet(cfg, s', tid, down)
    else if op.GetRead? && |op.pieces| < |op.obj.chunks| then RunGet(cfg, s', tid, down)
    else if op.GetRead? then s'.ops[tid]
    else op
  }

  // ---- One chunk ----

  lemma SetTwice(s: State, tid: nat, op: Op, op': Op)
    ensures SetOp(SetOp(s, tid, op), tid, op') == SetOp(s, tid, op')
  {
    assert s.ops[tid := op][tid := op'] == s.ops[tid := op'];
  }

  /** A node that holds a chunk gives the client what it asks for. */
  lemma HeldIsAccepted(cfg: Config, s: State, chunk: ChunkInfo, address: Bytes)
    requires ChunkOk(cfg, s.hist, chunk) && chunk.checksum != []
    requires Holds(cfg, s, address, chunk.chunkId)
    ensures ClientAccepts(chunk, Store.Read(cfg.hash, Disk(s, address), chunk.chunkId))
  {
    hide Deserialize;
    AcceptedIsCanonical(cfg.hash, Disk(s, address)[Store.ChunkPath(chunk.chunkId)]);
  }

  /** Some replica from position `r` on is up and holds the chunk. */
  ghost predicate Available(cfg: Config, s: State, chunk: ChunkInfo, r: nat, down: set<Bytes>) {
    exists i :: r <= i < |chunk.replicas| && chunk.replicas[i].address !in down &&
      Holds(cfg, s, chunk.replicas[i].address, chunk.chunkId)
  }

  /** What one read of a get leads to. */
  lemma OneRead(cfg: Config, b: State, tid: nat, obj: ObjectInfo, r: nat, pieces: seq<Bytes>,
                down: set<Bytes>)
    requires |pieces| < |obj.chunks| && r < |obj.chunks[|pieces|].replicas|
    ensures var chunk := obj.chunks[|pieces|];
            var address := chunk.replicas[r].address;
            var read := Store.Read(cfg.hash, Disk(b, address), chunk.chunkId);
            var next := if address !in down && ClientAccepts(chunk, read)
                        then GetRead(obj, 0, pieces + [read.value.1])
                        else GetRead(obj, r + 1, pieces);
            RunGet(cfg, SetOp(b, tid, GetRead(obj, r, pieces)), tid, down) ==
            RunGet(cfg, SetOp(b, tid, next), tid, down)
  {
    hide Store.Read, ClientAccepts;
    var op := GetRead(obj, r, pieces);
    var s := SetOp(b, tid, op);
    var s' := GetStep(cfg, s, tid, AnswerOf(op, down));
    SetTwice(b, tid, op, s'.ops[tid]);
  }

  /** The loop over the replicas finds the chunk's slice, whatever the others answer. */
  lemma {:induction false} ReadsChunk(cfg: Config, b: State, tid: nat, obj: ObjectInfo, r: nat,
                                      pieces: seq<Bytes>, down: set<Bytes>)
    requires Core(cfg, b) && !b.corrupt
    requires |pieces| < |obj.chunks| && ChunkOk(cfg, b.hist, obj.chunks[|pieces|])
    requires obj.chunks[|pieces|].checksum != []
    requires Available(cfg, b, obj.chunks[|pieces|], r, down)
    ensures var bytes := b.hist.births[obj.chunks[|pieces|].chunkId].bytes;
            RunGet(cfg, SetOp(b, tid, GetRead(obj, r, pieces)), tid, down) ==
            RunGet(cfg, SetOp(b, tid, GetRead(obj, 0, pieces + [bytes])), tid, down)
    decreases |obj.chunks[|pieces|].replicas| - r
  {
    hide Core, Store.Read, ClientAccepts, Holds, RunGet, SetOp;
    var chunk := obj.chunks[|pieces|];
    var address := chunk.replicas[r].address;
    OneRead(cfg, b, tid, obj, r, pieces, down);
    AcceptedPiece(cfg, b, chunk, address);
    if address in down ||
       !ClientAccepts(chunk, Store.Read(cfg.hash, Disk(b, address), chunk.chunkId))
    {
      var i :| r <= i < |chunk.replicas| && chunk.replicas[i].address !in down &&
        Holds(cfg, b, chunk.replicas[i].address, chunk.chunkId);
      if i == r {
        HeldIsAccepted(cfg, b, chunk, address);
      }
      ReadsChunk(cfg, b, tid, obj, r + 1, pieces, down);
    }
  }

  // ---- All chunks ----

  ghost function Slices(h: History, chunks: seq<ChunkInfo>): (pieces: seq<Bytes>)
    requires forall k :: 0 <= k < |chunks| ==> chunks[k].chunkId in h.births
    ensures |pieces| == |chunks|
  {
    seq(|chunks|, k requires 0 <= k < |chunks| => h.births[chunks[k].chunkId].bytes)
  }

  lemma {:induction false} ReadsAll(cfg: Config, b: State, tid: nat, obj: ObjectInfo, n: nat,
                                    down: set<Bytes>)
    requires Core(cfg, b) && !b.corrupt && n <= |obj.chunks|
    requires ChunksOk(cfg, b.hist, obj.chunks)
    requires forall k :: 0 <= k < |obj.chunks| ==>
               obj.chunks[k].checksum != [] && Available(cfg, b, obj.chunks[k], 0, down)
    ensures var all := Slices(b.hist, obj.chunks);
            RunGet(cfg, SetOp(b, tid, GetRead(obj, 0, all[..n])), tid, down) == GetDone(obj, all)
    decreases |obj.chunks| - n
  {
    hide Core, Available, RunGet, SetOp;
    var all := Slices(b.hist, obj.chunks);
    if n == |obj.chunks| {
      assert all[..n] == all;
      ReadsEnd(cfg, b, tid, obj, all, down);
    } else {
      ReadsChunk(cfg, b, tid, obj, 0, all[..n], down);
      assert all[..n] + [all[n]] == all[..n + 1];
      ReadsAll(cfg, b, tid, obj, n + 1, down);
    }
  }

  lemma ReadsEnd(cfg: Config, b: State, tid: nat, obj: ObjectInfo, pieces: seq<Bytes>,
                 down: set<Bytes>)
    requires |pieces| == |obj.chunks|
    ensures RunGet(cfg, SetOp(b, tid, GetRead(obj, 0, pieces)), tid, down) == GetDone(obj, pieces)
  {
    hide Store.Read, ClientAccepts;
  }

  // ---- Counting ----

  /** Fewer addresses than replicas cannot cover all replicas. */
  lemma {:induction false} SomeReplicaOutside(replicas: seq<ReplicaInfo>, lost: set<Bytes>)
    returns (i: nat)
    requires DistinctReplicas(replicas) && |lost| < |replicas|
    ensures i < |replicas| && replicas[i].address !in lost
  {
    var n := |replicas| - 1;
    if replicas[n].address !in lost {
      i := n;
    } else {
      i := SomeReplicaOutside(replicas[..n], lost - {replicas[n].address});
    }
  }

  /** No delete of this chunk was ever sent to a storage node. */
  ghost predicate NeverDropped(s: State, c: Bytes) {
    forall m :: m in s.sent && m.DeleteChunkMsg? ==> m.chunkId != c
  }

  /** The addresses that have lost the chunk since they last wrote it in full. */
  ghost function LostAt(s: State, c: Bytes): set<Bytes> {
    set p | p in s.lost && p.1 == c :: p.0
  }

  /** Not enough addresses are lost or down to cover a quorum of any chunk. */
  ghost predicate FewLost(cfg: Config, s: State, obj: ObjectInfo, down: set<Bytes>) {
    forall k :: 0 <= k < |obj.chunks| ==>
      |LostAt(s, obj.chunks[k].chunkId) + down| < Required(cfg.rf, cfg.policy)
  }

  lemma QuorumIsAvailable(cfg: Config, s: State, chunk: ChunkInfo, down: set<Bytes>)
    requires ChunkDur(cfg, s, chunk) && chunk.checksum != [] && !s.corrupt && !s.repeated
    requires NeverDropped(s, chunk.chunkId)
    requires |LostAt(s, chunk.chunkId) + down| < Required(cfg.rf, cfg.policy)
    ensures Available(cfg, s, chunk, 0, down)
  {
    hide Holds;
    var lost := LostAt(s, chunk.chunkId);
    var i := SomeReplicaOutside(chunk.replicas, lost + down);
    assert (chunk.replicas[i].address, chunk.chunkId) !in s.lost;
    assert Held(cfg, s, chunk.replicas[i].address, chunk.chunkId);
  }

  // ---- Main results ----

  ghost predicate Published(obj: ObjectInfo) {
    forall k :: 0 <= k < |obj.chunks| ==> obj.chunks[k].checksum != []
  }

  ghost predicate Kept(s: State, obj: ObjectInfo) {
    forall k :: 0 <= k < |obj.chunks| ==> NeverDropped(s, obj.chunks[k].chunkId)
  }

  lemma TableObject(cfg: Config, s: State, id: Bytes)
    requires Core(cfg, s) && MetaDur(cfg, s) && id in s.meta.objects
    ensures var obj := s.meta.objects[id];
            && ObjOk(cfg, s.hist, obj) && obj.objectId == id
            && (obj.filename != [] ==> Locate(s.meta, obj.filename) == Some(obj))
            && forall k :: 0 <= k < |obj.chunks| ==> ChunkDur(cfg, s, obj.chunks[k])
  {
    hide ObjOk, ChunkDur, DisksOk, SentOk, HistOk, DatasOk;
  }

  /** With fewer nodes than a quorum lost or down, an object can be read if and only if all its
      chunks are published, and the read gives the bytes it was put with. */
  lemma ReadableIffPublished(cfg: Config, s: State, id: Bytes, tid: nat, down: set<Bytes>)
    requires Inv(cfg, s) && Dur(cfg, s) && !s.corrupt && !s.repeated && id in s.meta.objects
    requires var obj := s.meta.objects[id];
             Kept(s, obj) && obj.filename != [] &&
             tid in s.ops && s.ops[tid] == GetLocate(obj.filename) && FewLost(cfg, s, obj, down)
    ensures var obj := s.meta.objects[id];
            var end := RunGet(cfg, s, tid, down);
            && (end.GetDone? <==> Published(obj))
            && (end.GetDone? ==> end.obj == obj && id in s.hist.datas &&
                                 Concat(end.pieces) == s.hist.datas[id])
  {
    hide Core, MetaDur, ChunkDur, Locate, RunGet, Required, NeverDropped, Shape, TotalSize,
         Available, LostAt;
    var obj := s.meta.objects[id];
    TableObject(cfg, s, id);
    GetBegins(cfg, s, tid, obj, down);
    if Published(obj) {
      forall k | 0 <= k < |obj.chunks| ensures Available(cfg, s, obj.chunks[k], 0, down) {
        QuorumIsAvailable(cfg, s, obj.chunks[k], down);
      }
      ReadsAll(cfg, s, tid, obj, 0, down);
      ConcatIsJoin(s.hist, obj.chunks, Slices(s.hist, obj.chunks));
    } else {
      var k :| 0 <= k < |obj.chunks| && obj.chunks[k].checksum == [];
      assert ChunkOk(cfg, s.hist, obj.chunks[k]);
      NoReplicaNoGet(cfg, s, tid, obj, 0, [], down, k);
    }
  }

  /** A chunk that lists no replica makes every get of its object fail. */
  lemma {:induction false} NoReplicaNoGet(cfg: Config, b: State, tid: nat, obj: ObjectInfo, r: nat,
                                          pieces: seq<Bytes>, down: set<Bytes>, k: nat)
    requires |pieces| <= k < |obj.chunks| && obj.chunks[k].replicas == []
    ensures RunGet(cfg, SetOp(b, tid, GetRead(obj, r, pieces)), tid, down) == Ended
    decreases k - |pieces|, |obj.chunks[|pieces|].replicas| - r
  {
    hide Store.Read;
    var chunk := obj.chunks[|pieces|];
    if r < |chunk.replicas| {
      hide RunGet;
      OneRead(cfg, b, tid, obj, r, pieces, down);
      var read := Store.Read(cfg.hash, Disk(b, chunk.replicas[r].address), chunk.chunkId);
      if chunk.replicas[r].address !in down && ClientAccepts(chunk, read) {
        NoReplicaNoGet(cfg, b, tid, obj, 0, pieces + [read.value.1], down, k);
      } else {
        NoReplicaNoGet(cfg, b, tid, obj, r + 1, pieces, down, k);
      }
    }
  }

  lemma GetBegins(cfg: Config, s: State, tid: nat, obj: ObjectInfo, down: set<Bytes>)
    requires tid in s.ops && s.ops[tid] == GetLocate(obj.filename)
    requires Locate(s.meta, obj.filename) == Some(obj)
    ensures RunGet(cfg, s, tid, down) == RunGet(cfg, SetOp(s, tid, GetRead(obj, 0, [])), tid, down)
  {
    hide Locate;
  }

  /** In every run, a put that finished with all its metadata updates acknowledged has published
      every chunk of its object. */
  lemma AckedPutIsPublished(cfg: Config, s: State, t: nat)
    requires Inv(cfg, s) && Dur(cfg, s) && t in s.ops && s.ops[t].PutDone? && s.ops[t].put.acked
    requires s.ops[t].put.objectId in s.meta.objects
    ensures var p := s.ops[t].put;
            && Published(s.meta.objects[p.objectId])
            && p.objectId in s.hist.datas && s.hist.datas[p.objectId] == p.data
  {
    hide Core, MetaDur, SentDur, ChunksOk, Shape, TotalSize, Slice;
    OpOf(cfg, s, t);
    var p := s.ops[t].put;
    SameCount(cfg, s, p);
  }

  lemma SameCount(cfg: Config, s: State, p: PutState)
    requires Core(cfg, s) && PutOk(cfg, s.hist, p) && p.objectId in s.meta.objects
    ensures |s.meta.objects[p.objectId].chunks| == |p.plan|
  {
    hide DisksOk, SentOk, HistOk, DatasOk, TotalSize, Slice, ChunksOk, ChunkCount, PlannedSize,
         Join;
    assert ObjOk(cfg, s.hist, s.meta.objects[p.objectId]);
  }

  // ---- A get among everybody else ----

  /** What the records of a located object must say for the get to stand the loss of `bad`. */
  ghost predicate Robust(obj: ObjectInfo, bad: set<Bytes>) {
    forall k :: 0 <= k < |obj.chunks| ==>
      obj.chunks[k].checksum != [] && DistinctReplicas(obj.chunks[k].replicas) &&
      |bad| < |obj.chunks[k].replicas|
  }

  /** Outside `bad` nothing of the object is missing. */
  ghost predicate Supported(s: State, obj: ObjectInfo, bad: set<Bytes>) {
    && !s.corrupt
    && forall k :: 0 <= k < |obj.chunks| ==>
         LostAt(s, obj.chunks[k].chunkId) <= bad && NeverDropped(s, obj.chunks[k].chunkId)
  }

  /** A read that the get sends outside `bad` is answered. */
  ghost predicate Responsive(s: State, step: Step, tid: nat, bad: set<Bytes>) {
    (step.Client? && step.tid == tid && tid in s.ops && NextAddress(s.ops[tid]).Some? &&
     NextAddress(s.ops[tid]).value !in bad) ==> step.c.answered
  }

  /** The get is done, or has so far passed over addresses in `bad` only. */
  ghost predicate Reading(op: Op, obj: ObjectInfo, bad: set<Bytes>) {
    || (op.GetDone? && op.obj == obj)
    || (&& op.GetRead? && op.obj == obj && |op.pieces| <= |obj.chunks|
        && (|op.pieces| < |obj.chunks| ==>
              var replicas := obj.chunks[|op.pieces|].replicas;
              op.r <= |replicas| && forall r :: 0 <= r < op.r ==> replicas[r].address in bad))
  }

  /** A get cannot have passed over all replicas. */
  lemma ReplicaLeft(obj: ObjectInfo, bad: set<Bytes>, k: nat, r: nat)
    requires Robust(obj, bad) && k < |obj.chunks| && r <= |obj.chunks[k].replicas|
    requires forall x :: 0 <= x < r ==> obj.chunks[k].replicas[x].address in bad
    ensures r < |obj.chunks[k].replicas|
  {
    var i := SomeReplicaOutside(obj.chunks[k].replicas, bad);
  }

  /** Outside `bad` the next replica gives the client its piece. */
  lemma NextReplicaServes(cfg: Config, s: State, obj: ObjectInfo, bad: set<Bytes>, k: nat, r: nat)
    requires Robust(obj, bad) && Supported(s, obj, bad) && Located(cfg, s, obj)
    requires k < |obj.chunks| && ChunkOk(cfg, s.hist, obj.chunks[k])
    requires r < |obj.chunks[k].replicas| && obj.chunks[k].replicas[r].address !in bad
    ensures var chunk := obj.chunks[k];
            ClientAccepts(chunk, Store.Read(cfg.hash, Disk(s, chunk.replicas[r].address),
                                            chunk.chunkId))
  {
    hide Holds, Store.Read, ClientAccepts;
    var chunk := obj.chunks[k];
    var address := chunk.replicas[r].address;
    assert ChunkDur(cfg, s, chunk);
    assert Held(cfg, s, address, chunk.chunkId);
    assert address !in LostAt(s, chunk.chunkId);
    assert DeleteChunkMsg(address, chunk.chunkId) !in s.sent;
    HeldIsAccepted(cfg, s, chunk, address);
  }

  lemma GetStaysReading(cfg: Config, s: State, tid: nat, c: Choice, obj: ObjectInfo,
                        bad: set<Bytes>)
    requires Inv(cfg, s) && Dur(cfg, s) && tid in s.ops && s.ops[tid].GetRead?
    requires Reading(s.ops[tid], obj, bad) && Robust(obj, bad) && Supported(s, obj, bad)
    requires Responsive(s, Client(tid, c), tid, bad)
    ensures Reading(GetStep(cfg, s, tid, c).ops[tid], obj, bad)
  {
    hide Core, OpsOk, Dur, Robust, Supported, Store.Read, ClientAccepts, ObjOk, Located;
    var op := s.ops[tid];
    OpOf(cfg, s, tid);
    DurOf(cfg, s, tid);
    PieceBounds(cfg, s.hist, s.corrupt, obj, op.pieces);
    if |op.pieces| < |obj.chunks| {
      ReplicaLeft(obj, bad, |op.pieces|, op.r);
      ObjChunk(cfg, s.hist, obj, |op.pieces|);
      if obj.chunks[|op.pieces|].replicas[op.r].address !in bad {
        NextReplicaServes(cfg, s, obj, bad, |op.pieces|, op.r);
      }
    }
  }

  lemma StepStaysReading(cfg: Config, s: State, step: Step, tid: nat, obj: ObjectInfo,
                         bad: set<Bytes>)
    requires ConfigOk(cfg) && Inv(cfg, s) && Dur(cfg, s) && Enabled(cfg, s, step) && tid in s.ops
    requires Reading(s.ops[tid], obj, bad) && Robust(obj, bad) && Supported(s, obj, bad)
    requires Responsive(s, step, tid, bad)
    ensures var s' := Next(cfg, s, step); tid in s'.ops && Reading(s'.ops[tid], obj, bad)
  {
    hide Inv, Dur, Reading, Robust, Supported, Responsive, ClientEnabled;
    if step.Client? && step.tid == tid {
      OwnStepReading(cfg, s, step.c, tid, obj, bad);
    } else {
      hide Next, Enabled;
      OthersKeepOp(cfg, s, step, tid);
    }
  }

  lemma OwnStepReading(cfg: Config, s: State, c: Choice, tid: nat, obj: ObjectInfo,
                       bad: set<Bytes>)
    requires ConfigOk(cfg) && Inv(cfg, s) && Dur(cfg, s) && Enabled(cfg, s, Client(tid, c))
    requires Reading(s.ops[tid], obj, bad) && Robust(obj, bad) && Supported(s, obj, bad)
    requires Responsive(s, Client(tid, c), tid, bad)
    ensures var s' := Next(cfg, s, Client(tid, c)); tid in s'.ops && Reading(s'.ops[tid], obj, bad)
  {
    hide Inv, Dur, Robust, Supported, Responsive, ClientEnabled, PutStep, RepairStep, DeleteStep,
         Store.Read, ClientAccepts;
    if s.ops[tid].GetRead? {
      GetStaysReading(cfg, s, tid, c, obj, bad);
    }
  }

  /** Every step of its own brings a reading get closer to its end. */
  lemma GetStepsRunOut(cfg: Config, s: State, tid: nat, c: Choice)
    requires tid in s.ops && s.ops[tid].GetRead? && |s.ops[tid].pieces| <= |s.ops[tid].obj.chunks|
    ensures var op, op' := s.ops[tid], GetStep(cfg, s, tid, c).ops[tid];
            || ChunksLeft(op') < ChunksLeft(op)
            || (ChunksLeft(op') == ChunksLeft(op) && ReplicasLeft(op') < ReplicasLeft(op))
  {
    hide Store.Read, ClientAccepts;
  }

  lemma {:induction false} KeepsReading(cfg: Config, steps: seq<Step>, states: seq<State>, n: nat,
                                        m: nat, tid: nat, obj: ObjectInfo, bad: set<Bytes>)
    requires RunOf(cfg, steps, states) && n <= m < |states|
    requires tid in states[n].ops && states[n].ops[tid] == GetRead(obj, 0, []) && Robust(obj, bad)
    requires forall j :: n <= j < m ==>
               Supported(states[j], obj, bad) && Responsive(states[j], steps[j], tid, bad)
    ensures tid in states[m].ops && Reading(states[m].ops[tid], obj, bad)
  {
    hide Inv, Dur, Next, Enabled, Robust, Supported, Responsive;
    if n < m {
      KeepsReading(cfg, steps, states, n, m - 1, tid, obj, bad);
      hide Reading;
      RunInv(cfg, steps, states, m - 1);
      RunDur(cfg, steps, states, m - 1);
      StepStaysReading(cfg, states[m - 1], steps[m - 1], tid, obj, bad);
    }
  }

  /** The record of a put that finished with every update acknowledged stands any loss below its
      quorum. */
  lemma AckedPutIsRobust(cfg: Config, s: State, t: nat, bad: set<Bytes>)
    requires Inv(cfg, s) && Dur(cfg, s) && !s.repeated && |bad| < Required(cfg.rf, cfg.policy)
    requires t in s.ops && s.ops[t].PutDone? && s.ops[t].put.acked
    requires s.ops[t].put.objectId in s.meta.objects
    ensures Robust(s.meta.objects[s.ops[t].put.objectId], bad)
  {
    hide Core, OpsOk, SentDur, OpsDur, MetaDur, Held, DistinctReplicas;
    AckedPutIsPublished(cfg, s, t);
    var id := s.ops[t].put.objectId;
    TableObject(cfg, s, id);
  }

  /** The store's promise, over all runs. A put reported success and its metadata updates were
      acknowledged. Later a get locates the object. From then on puts, repairs, deletes of other
      objects, failures and delayed requests interleave with the get at will; but the addresses
      that lose a chunk of the object, or leave a read of the get unanswered, all lie in one set
      of fewer nodes than the quorum. Then the get never fails, and when it is done it has
      returned the bytes of that put under the name of that put. */
  lemma PutSurvivesLosses(cfg: Config, steps: seq<Step>, states: seq<State>, n: nat, m: nat,
                          t: nat, tid: nat, bad: set<Bytes>)
    requires RunOf(cfg, steps, states) && n <= m < |states|
    requires t in states[n].ops && states[n].ops[t].PutDone? && states[n].ops[t].put.acked
    requires !states[n].repeated && |bad| < Required(cfg.rf, cfg.policy)
    requires var s := states[n];
             && s.ops[t].put.objectId in s.meta.objects
             && var obj := s.meta.objects[s.ops[t].put.objectId];
                && tid in s.ops && s.ops[tid] == GetRead(obj, 0, [])
                && forall j :: n <= j < m ==>
                     Supported(states[j], obj, bad) && Responsive(states[j], steps[j], tid, bad)
    ensures tid in states[m].ops && (states[m].ops[tid].GetRead? || states[m].ops[tid].GetDone?)
    ensures states[m].ops[tid].GetDone? && !states[m].corrupt ==>
              && Concat(states[m].ops[tid].pieces) == states[n].ops[t].put.data
              && states[m].ops[tid].obj.filename == states[n].ops[t].put.filename
  {
    hide Next, Enabled, Inv, Dur, Robust, Supported, Responsive, RunOf;
    var s := states[n];
    var p := s.ops[t].put;
    RunInv(cfg, steps, states, n);
    RunDur(cfg, steps, states, n);
    AckedPutIsRobust(cfg, s, t, bad);
    KeepsReading(cfg, steps, states, n, m, tid, s.meta.objects[p.objectId], bad);
    if states[m].ops[tid].GetDone? && !states[m].corrupt {
      GetReturnsWhatWasPut(cfg, steps, states, m, tid);
      HistoryOfPut(cfg, steps, states, n, m, t);
      TableId(cfg, s, p.objectId);
    }
  }

  lemma TableId(cfg: Config, s: State, id: Bytes)
    requires Inv(cfg, s) && id in s.meta.objects
    ensures s.meta.objects[id].objectId == id
  {
    hide ObjOk, DisksOk, SentOk, HistOk, DatasOk, OpsOk;
  }

  /** The same promise for a get that runs on its own: it ends, and with the bytes of the put. */
  lemma PutReadableAlone(cfg: Config, steps: seq<Step>, states: seq<State>, n: nat, t: nat,
                         tid: nat, down: set<Bytes>)
    requires RunOf(cfg, steps, states) && n < |states|
    requires t in states[n].ops && states[n].ops[t].PutDone? && states[n].ops[t].put.acked
    requires !states[n].corrupt && !states[n].repeated
    requires var s := states[n];
             && s.ops[t].put.objectId in s.meta.objects
             && var obj := s.meta.objects[s.ops[t].put.objectId];
                Kept(s, obj) && obj.filename != [] && FewLost(cfg, s, obj, down) &&
                tid in s.ops && s.ops[tid] == GetLocate(obj.filename)
    ensures var end := RunGet(cfg, states[n], tid, down);
            end.GetDone? && Concat(end.pieces) == states[n].ops[t].put.data
  {
    hide Next, Enabled, Inv, Dur, RunGet, Kept, Published, FewLost;
    RunInv(cfg, steps, states, n);
    RunDur(cfg, steps, states, n);
    AckedPutIsPublished(cfg, states[n], t);
    ReadableIffPublished(cfg, states[n], states[n].ops[t].put.objectId, tid, down);
  }

  /** What the history says of a put's object it says for ever. */
  lemma {:induction false} HistoryOfPut(cfg: Config, steps: seq<Step>, states: seq<State>, n: nat,
                                        m: nat, t: nat)
    requires RunOf(cfg, steps, states) && n <= m < |states|
    requires t in states[n].ops && states[n].ops[t].PutDone?
    ensures var (p, h) := (states[n].ops[t].put, states[m].hist);
            && p.objectId in h.datas && h.datas[p.objectId] == p.data
            && p.objectId in h.names && h.names[p.objectId] == p.filename
  {
    hide Next, Enabled, Core, Shape, TotalSize, OpsOk;
    if n < m {
      HistoryOfPut(cfg, steps, states, n, m - 1, t);
      RunInv(cfg, steps, states, m - 1);
      StepKeepsInv(cfg, states[m - 1], steps[m - 1]);
    } else {
      RunInv(cfg, steps, states, n);
      OpOf(cfg, states[n], t);
    }
  }

  // ---- The reply to UpdateChunk is ignored, so success alone promises nothing ----

  const NODE: NodeInfo := NodeInfo([1], [2], true, 0)

  function Answered(c: Choice): Choice {
    c.(answered := true)
  }

  /** One node, replication factor 1, an empty file: everything works except that the UpdateChunk
      request is lost. */
  function LostUpdate(hash: Hash): seq<Step> {
    var reach := |Store.Image(hash, Header([8], [7], 1, 0, hash([]), 0), [], 0)|;
    [ ChangeNodes(map[[1] := NODE]),
      Start(0, PutCreate([9], [])),
      Client(0, Answered(DEAF.(id := [7], uuids := [[8]]))),
      Client(0, Answered(DEAF.(nodes := [NODE], order := [[1]]))),
      Client(0, Answered(DEAF.(wfate := Store.Published(reach)))),
      Client(0, DEAF),
      Client(0, DEAF),
      Client(0, DEAF),
      Start(1, GetLocate([9])) ]
  }

  /** The first three steps: a node registers, the put starts, its object is created. */
  lemma LostUpdateCreates(cfg: Config) returns (states: seq<State>, p: PutState)
    requires ConfigOk(cfg) && cfg.chunkSize == 1
    ensures |states| == 4 && states[0] == INIT
    ensures var steps := LostUpdate(cfg.hash);
            forall i :: 0 <= i < 3 ==>
              Enabled(cfg, states[i], steps[i]) && states[i + 1] == Next(cfg, states[i], steps[i])
    ensures p == PutState([7], [9], [], Plan([7], 0, 1, [[8]]), 0, 0, true)
    ensures var s := states[3];
            && s.ops == map[0 := PutSelect(p)] && s.meta.nodes == map[[1] := NODE]
            && s.meta.names == map[[9] := [7]]
            && s.meta.objects == map[[7] := ObjectInfo([7], [9], 0, cfg.rf, p.plan)]
            && s.lost == {} && !s.corrupt && !s.repeated
  {
    hide Births, Plan, ServeCreate, FreshIds, Store.Image;
    var steps := LostUpdate(cfg.hash);
    p := PutState([7], [9], [], Plan([7], 0, 1, [[8]]), 0, 0, true);
    var s1 := Next(cfg, INIT, steps[0]);
    var s2 := Next(cfg, s1, steps[1]);
    LostUpdateCreate(cfg, s2, p);
    states := [INIT, s1, s2, Next(cfg, s2, steps[2])];
  }

  lemma LostUpdateCreate(cfg: Config, s: State, p: PutState)
    requires ConfigOk(cfg) && cfg.chunkSize == 1
    requires p == PutState([7], [9], [], Plan([7], 0, 1, [[8]]), 0, 0, true)
    requires s == INIT.(meta := EMPTY.(nodes := map[[1] := NODE]), ops := map[0 := PutCreate([9], [])])
    ensures |LostUpdate(cfg.hash)| == 9
    ensures var step := LostUpdate(cfg.hash)[2];
            && Enabled(cfg, s, step)
            && var s' := Next(cfg, s, step);
               && s' == s.(meta := s'.meta, ops := s'.ops, hist := s'.hist, sent := s'.sent)
               && s'.ops == map[0 := PutSelect(p)]
               && s'.meta == Meta(map[[7] := ObjectInfo([7], [9], 0, cfg.rf, p.plan)],
                                  map[[9] := [7]], map[[1] := NODE])
  {
    hide Births, Plan, Store.Image;
    assert ChunkCount(0, 1) == 1;
  }

  /** The next three: a node is selected, the write is acknowledged, the quorum is reached. */
  lemma LostUpdateWrites(cfg: Config, s: State, p: PutState) returns (states: seq<State>)
    requires ConfigOk(cfg) && cfg.rf == 1 && cfg.policy.Majority? && cfg.strategy.LeastUsed?
    requires p == PutState([7], [9], [], Plan([7], 0, 1, [[8]]), 0, 0, true)
    requires s.ops == map[0 := PutSelect(p)] && s.meta.nodes == map[[1] := NODE]
    requires s.lost == {} && !s.corrupt && !s.repeated
    ensures |states| == 4 && states[0] == s
    ensures var steps := LostUpdate(cfg.hash);
            forall i :: 0 <= i < 3 ==>
              Enabled(cfg, states[i], steps[3 + i]) &&
              states[i + 1] == Next(cfg, states[i], steps[3 + i])
    ensures states[3] == SetOp(s, 0, PutPublish(p, AddReplica([], NODE, 1)))
                         .(disks := states[3].disks, sent := states[3].sent)
  {
    hide Next, Enabled, LostUpdate, SetOp, AddReplica, Plan;
    var steps := LostUpdate(cfg.hash);
    LostUpdateSelect(cfg, s, p);
    var s1 := SetOp(s, 0, PutWrite(p, [NODE], 0, []));
    LostUpdateWrite(cfg, s, s1, p);
    var s2 := Next(cfg, s1, steps[4]);
    LostUpdateQuorum(cfg, s, s2, p);
    states := [s, s1, s2, Next(cfg, s2, steps[5])];
  }

  lemma LostUpdateSelect(cfg: Config, s: State, p: PutState)
    requires ConfigOk(cfg) && cfg.rf == 1 && cfg.strategy.LeastUsed? && p.k < |p.plan|
    requires s.ops == map[0 := PutSelect(p)] && s.meta.nodes == map[[1] := NODE] && !s.repeated
    ensures |LostUpdate(cfg.hash)| == 9
    ensures var step := LostUpdate(cfg.hash)[3];
            && Enabled(cfg, s, step)
            && Next(cfg, s, step) == SetOp(s, 0, PutWrite(p, [NODE], 0, []))
  {
    hide Store.Image;
    assert s.meta.nodes.Keys == {[1]};
  }

  lemma LostUpdateWrite(cfg: Config, s: State, s1: State, p: PutState)
    requires ConfigOk(cfg) && s.ops == map[0 := PutSelect(p)] && s.lost == {}
    requires p == PutState([7], [9], [], Plan([7], 0, 1, [[8]]), 0, 0, true)
    requires s1 == SetOp(s, 0, PutWrite(p, [NODE], 0, []))
    ensures |LostUpdate(cfg.hash)| == 9
    ensures var step := LostUpdate(cfg.hash)[4];
            && Enabled(cfg, s1, step)
            && var s2 := Next(cfg, s1, step);
               s2 == SetOp(s, 0, PutWrite(p, [NODE], 1, AddReplica([], NODE, 1)))
                     .(disks := s2.disks, sent := s2.sent)
  {
    hide Store.WriteFiles, Store.Image;
    var step := LostUpdate(cfg.hash)[4];
    assert p.plan == [Planned([7], [8], 0, 0)];
    assert PutHeader(cfg, p) == Header([8], [7], 1, 0, cfg.hash([]), 0);
    var s2 := Next(cfg, s1, step);
    assert s2.lost == {};
    assert s2.ops == s.ops[0 := PutWrite(p, [NODE], 1, AddReplica([], NODE, 1))];
  }

  lemma LostUpdateQuorum(cfg: Config, s: State, s2: State, p: PutState)
    requires ConfigOk(cfg) && cfg.rf == 1 && cfg.policy.Majority? && p.k < |p.plan|
    requires s2 == SetOp(s, 0, PutWrite(p, [NODE], 1, AddReplica([], NODE, 1)))
                   .(disks := s2.disks, sent := s2.sent)
    ensures |LostUpdate(cfg.hash)| == 9
    ensures var step := LostUpdate(cfg.hash)[5];
            && Enabled(cfg, s2, step)
            && var s3 := Next(cfg, s2, step);
               s3 == SetOp(s, 0, PutPublish(p, AddReplica([], NODE, 1)))
                     .(disks := s3.disks, sent := s3.sent)
  {
    hide Store.Image;
    var s3 := Next(cfg, s2, LostUpdate(cfg.hash)[5]);
    assert s3.ops == s.ops[0 := PutPublish(p, AddReplica([], NODE, 1))];
  }

  /** The last three: the update is lost, the put reports success, a get starts. */
  lemma LostUpdateEnds(cfg: Config, s: State, p: PutState, replicas: seq<ReplicaInfo>)
    returns (states: seq<State>)
    requires ConfigOk(cfg) && |p.plan| == 1 && p.k == 0
    requires s.ops == map[0 := PutPublish(p, replicas)]
    ensures |states| == 4 && states[0] == s
    ensures var steps := LostUpdate(cfg.hash);
            forall i :: 0 <= i < 3 ==>
              Enabled(cfg, states[i], steps[6 + i]) &&
              states[i + 1] == Next(cfg, states[i], steps[6 + i])
    ensures states[3] == s.(sent := states[3].sent,
                            ops := map[0 := PutDone(PutNext(p, false)), 1 := GetLocate([9])])
  {
    hide Store.Image;
    var steps := LostUpdate(cfg.hash);
    var s1 := Next(cfg, s, steps[6]);
    var s2 := Next(cfg, s1, steps[7]);
    var s3 := Next(cfg, s2, steps[8]);
    states := [s, s1, s2, s3];
    assert s3.ops == map[0 := PutDone(PutNext(p, false)), 1 := GetLocate([9])];
  }

  /** A put that reports success, with no fault but one update request that has not been served,
      and yet the file it stored cannot be read in that state: every node answers and the get
      still fails. */
  lemma SuccessWithoutUpdate(hash: Hash) returns (cfg: Config, states: seq<State>)
    requires forall x :: 0 < |hash(x)| < U32_LIMIT
    ensures RunOf(cfg, LostUpdate(hash), states)
    ensures var s := states[9];
            && 0 in s.ops && s.ops[0].PutDone? && !s.corrupt && !s.repeated && s.lost == {}
            && 1 in s.ops && s.ops[1] == GetLocate([9]) && RunGet(cfg, s, 1, {}) == Ended
  {
    hide RunGet, Next, Enabled, LostUpdate;
    cfg := Config(hash, 1, Majority, LeastUsed, 1);
    var first, p := LostUpdateCreates(cfg);
    var second := LostUpdateWrites(cfg, first[3], p);
    var third := LostUpdateEnds(cfg, second[3], p, AddReplica([], NODE, 1));
    states := first + second[1..] + third[1..];
    assert |LostUpdate(hash)| == 9 by { LostUpdateLength(hash); }
    var s := states[9];
    var obj := s.meta.objects[[7]];
    GetBegins(cfg, s, 1, obj, {});
    NoReplicaNoGet(cfg, s, 1, obj, 0, [], {}, 0);
  }

  lemma LostUpdateLength(hash: Hash)
    ensures |LostUpdate(hash)| == 9
  {
    hide Store.Image;
  }
}
