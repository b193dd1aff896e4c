/** The cluster as its processes see it: one shared state, advanced by their requests while every
    other process, server and fault takes steps in between. */
module Network {
  import opened Bytes
  import opened Types
  import opened MetadataStore
  import opened Selection
  import opened Protocol
  import opened ChunkFormat
  import opened IntegrityRuns

  /** What happens around one request: steps of everybody else, then the answer. */
  datatype Turn = Turn(others: seq<Step>, answer: Choice)

  const NO_ANSWER: Choice := Choice(false, [], [], 0, Store.OpenFailed, Store.RemoveFailed, [], [], 0)

  // ---- A step moves one operation, and no request is ever taken back ----

  ghost predicate MovesOnly(s: State, s': State, tid: nat) {
    && s.sent <= s'.sent
    && forall t :: t in s.ops && t != tid ==> t in s'.ops && s'.ops[t] == s.ops[t]
  }

  lemma ServersKeepOps(cfg: Config, s: State, address: Bytes, h: Header, payload: Bytes,
                       now: nat, fate: Store.WriteFate, id: Bytes, chunk: ChunkInfo)
    ensures var s' := ServeWrite(cfg, s, address, h, payload, now, fate).0;
            s'.ops == s.ops && s'.sent == s.sent
    ensures var s' := ServeUpdate(s, id, chunk).0; s'.ops == s.ops && s'.sent == s.sent
  {
    hide Store.WriteFiles, Store.Image, UpdateChunk;
  }

  lemma CreateKeepsOps(cfg: Config, s: State, filename: Bytes, data: Bytes, id: Bytes,
                       uuids: seq<Bytes>)
    requires cfg.chunkSize > 0 && FreshIds(cfg, s, data, id, uuids)
    ensures var s' := ServeCreate(cfg, s, filename, data, id, uuids).0;
            s'.ops == s.ops && s'.sent == s.sent
  {
    hide Births, FreshIds;
  }

  lemma PutMovesOnly(cfg: Config, s: State, tid: nat, c: Choice)
    requires cfg.chunkSize > 0 && tid in s.ops && ClientEnabled(cfg, s, s.ops[tid], c)
    ensures MovesOnly(s, PutStep(cfg, s, tid, c), tid)
  {
    hide ServeWrite, ServeUpdate, ServeCreate, FreshIds, PutHeader, PutBytes, PutChunk;
    match s.ops[tid]
    case PutCreate(filename, data) =>
      if c.answered {
        FreshAfterSend(cfg, s, CreateMsg(filename, data), data, c);
        CreateKeepsOps(cfg, Send(s, CreateMsg(filename, data)), filename, data, c.id, c.uuids);
      }
    case PutWrite(p, nodes, i, _) =>
      if p.k < |p.plan| && i < |nodes| {
        var h, bytes := PutHeader(cfg, p), PutBytes(p);
        ServersKeepOps(cfg, Send(s, WriteMsg(nodes[i].address, h, bytes)), nodes[i].address, h,
                       bytes, c.now, c.wfate, [], p.plan[p.k]);
      }
    case PutPublish(p, replicas) =>
      if p.k < |p.plan| {
        var chunk := PutChunk(cfg, p, replicas);
        ServersKeepOps(cfg, Send(s, UpdateMsg(p.objectId, chunk)), [],
                       PutHeader(cfg, p), [], c.now, c.wfate, p.objectId, chunk);
      }
    case _ =>
  }

  lemma RepairMovesOnly(cfg: Config, s: State, tid: nat, c: Choice)
    requires tid in s.ops
    ensures MovesOnly(s, RepairStep(cfg, s, tid, c), tid)
  {
    hide ServeWrite, ServeUpdate, RepairHeader, RepairChunk, Store.Read, DistinctAddresses,
         Required;
    match s.ops[tid]
    case RepairWrite(rs, bytes, nodes, i, _) =>
      if rs.todo != [] && i < |nodes| {
        var chunk, address := rs.todo[0], RepairAddress(rs.local, nodes[i]);
        var h := RepairHeader(cfg, chunk, bytes, if nodes[i].id == rs.local.id then 0 else c.now);
        ServersKeepOps(cfg, Send(s, WriteMsg(address, h, bytes)), address, h, bytes, c.now,
                       c.wfate, [], chunk);
      }
    case RepairPublish(rs, bytes, replicas) =>
      if rs.todo != [] {
        var chunk := RepairChunk(rs.todo[0], replicas);
        ServersKeepOps(cfg, Send(s, UpdateMsg(chunk.objectId, chunk)), [],
                       RepairHeader(cfg, chunk, bytes, 0), [], 0, c.wfate, chunk.objectId, chunk);
      }
    case _ =>
  }

  lemma GetMovesOnly(cfg: Config, s: State, tid: nat, c: Choice)
    requires tid in s.ops
    ensures MovesOnly(s, GetStep(cfg, s, tid, c), tid)
  {
    hide Store.Read, ClientAccepts, Locate;
  }

  lemma DeleteMovesOnly(s: State, tid: nat, c: Choice)
    requires tid in s.ops
    ensures MovesOnly(s, DeleteStep(s, tid, c), tid)
  {
    hide Store.DeleteFiles, DeleteObject, Locate;
  }

  lemma ClientMovesOnly(cfg: Config, s: State, tid: nat, c: Choice)
    requires cfg.chunkSize > 0 && tid in s.ops && ClientEnabled(cfg, s, s.ops[tid], c)
    ensures MovesOnly(s, Next(cfg, s, Client(tid, c)), tid)
  {
    hide MovesOnly, PutStep, GetStep, RepairStep, DeleteStep, ClientEnabled;
    PutMovesOnly(cfg, s, tid, c);
    GetMovesOnly(cfg, s, tid, c);
    RepairMovesOnly(cfg, s, tid, c);
    DeleteMovesOnly(s, tid, c);
  }

  lemma OthersKeepOp(cfg: Config, s: State, step: Step, tid: nat)
    requires cfg.chunkSize > 0 && Enabled(cfg, s, step) && tid in s.ops
    requires !(step.Client? && step.tid == tid)
    ensures var s' := Next(cfg, s, step);
            tid in s'.ops && s'.ops[tid] == s.ops[tid] && s.sent <= s'.sent
  {
    hide ServeWrite, ServeUpdate, ServeCreate, FreshIds, ClientEnabled, Store.DeleteFiles,
         DeleteObject, PutStep, GetStep, RepairStep, DeleteStep, Initial;
    match step
    case Client(mover, c) => ClientMovesOnly(cfg, s, mover, c);
    case LateCreate(filename, data, c) => CreateKeepsOps(cfg, s, filename, data, c.id, c.uuids);
    case LateWrite(address, h, payload, c) =>
      ServersKeepOps(cfg, s, address, h, payload, c.now, c.wfate, [], NO_CHUNK);
    case LateUpdate(id, chunk) =>
      ServersKeepOps(cfg, s, [], Header([], [], 0, 0, [], 0), [], 0, Store.OpenFailed, id, chunk);
    case _ =>
  }

  /** Step `k` of the run is one of operation `tid` itself. */
  ghost predicate Own(steps: seq<Step>, tid: nat, k: int) {
    0 <= k < |steps| && steps[k].Client? && steps[k].tid == tid
  }

  lemma OwnStays(steps: seq<Step>, step: Step, tid: nat)
    ensures forall k :: 0 <= k < |steps| ==>
              (Own(steps + [step], tid, k) <==> Own(steps, tid, k))
    ensures Own(steps + [step], tid, |steps|) <==> step.Client? && step.tid == tid
  {
  }

  /** From step `from` on, no step of operation `tid` changed the object table. */
  ghost predicate Quiet(steps: seq<Step>, states: seq<State>, from: nat, tid: nat) {
    && |states| == |steps| + 1
    && forall k :: from <= k < |steps| && Own(steps, tid, k) ==>
         states[k + 1].meta.objects == states[k].meta.objects
  }

  /** The object ids that steps of operation `tid`, from step `from` on, took out of the table. */
  ghost predicate TookOut(steps: seq<Step>, states: seq<State>, from: nat, tid: nat, id: Bytes) {
    && |states| == |steps| + 1
    && exists k :: from <= k < |steps| && Own(steps, tid, k) &&
                   id in states[k].meta.objects && id !in states[k + 1].meta.objects
  }

  /** What a longer run keeps of a quiet stretch. */
  lemma QuietOn(steps: seq<Step>, states: seq<State>, steps': seq<Step>, states': seq<State>,
                from: nat, tid: nat)
    requires Quiet(steps, states, from, tid) && |states'| == |steps'| + 1
    requires steps <= steps' && states <= states' && Quiet(steps', states', |steps|, tid)
    ensures Quiet(steps', states', from, tid)
  {
    forall k | from <= k < |steps'| && Own(steps', tid, k)
      ensures states'[k + 1].meta.objects == states'[k].meta.objects
    {
      if k < |steps| {
        assert Own(steps, tid, k);
        assert states[k + 1] == states'[k + 1] && states[k] == states'[k];
      }
    }
  }

  /** After a quiet stretch, exactly what the rest took out. */
  lemma TookOutOn(steps: seq<Step>, states: seq<State>, steps': seq<Step>, states': seq<State>,
                  from: nat, tid: nat, id: Bytes)
    requires Quiet(steps, states, from, tid) && from <= |steps| && |states'| == |steps'| + 1
    requires steps <= steps' && states <= states'
    ensures TookOut(steps', states', from, tid, id) <==> TookOut(steps', states', |steps|, tid, id)
  {
    forall k | from <= k < |steps| && Own(steps', tid, k)
      ensures states'[k + 1].meta.objects == states'[k].meta.objects
    {
      assert Own(steps, tid, k);
      assert states[k + 1] == states'[k + 1] && states[k] == states'[k];
    }
  }

  /** Some request of operation `tid`, from step `from` on, was not answered. */
  ghost predicate Unanswered(steps: seq<Step>, from: nat, tid: nat) {
    exists k :: from <= k < |steps| && Own(steps, tid, k) && !steps[k].c.answered
  }

  lemma UnansweredOn(steps: seq<Step>, steps': seq<Step>, from: nat, tid: nat)
    requires steps <= steps' && from <= |steps|
    ensures Unanswered(steps', from, tid) <==>
            Unanswered(steps, from, tid) || Unanswered(steps', |steps|, tid)
  {
    forall k | 0 <= k < |steps| ensures Own(steps', tid, k) <==> Own(steps, tid, k) {
      assert steps'[k] == steps[k];
    }
    if Unanswered(steps, from, tid) {
      var k :| from <= k < |steps| && Own(steps, tid, k) && !steps[k].c.answered;
      assert Own(steps', tid, k) && steps'[k] == steps[k];
    }
    if Unanswered(steps', from, tid) {
      var k :| from <= k < |steps'| && Own(steps', tid, k) && !steps'[k].c.answered;
      assert k < |steps| ==> Own(steps, tid, k) && steps[k] == steps'[k];
    }
  }

  lemma UnansweredCall(steps: seq<Step>, from: nat, tid: nat, c: Choice)
    requires from < |steps| && steps[|steps| - 1] == Client(tid, c)
    requires forall k :: from <= k < |steps| - 1 ==> !Own(steps, tid, k)
    ensures Unanswered(steps, from, tid) <==> !c.answered
  {
    assert Own(steps, tid, |steps| - 1);
  }

  /** The steps of operation `tid`, from step `from` on, that sent a repaired chunk's record. */
  ghost function Updates(steps: seq<Step>, states: seq<State>, from: nat, tid: nat): set<int> {
    set k | from <= k < |steps| && Own(steps, tid, k) && k < |states| && tid in states[k].ops &&
            states[k].ops[tid].RepairPublish?
  }

  lemma UpdatesOn(steps: seq<Step>, states: seq<State>, steps': seq<Step>, states': seq<State>,
                  from: nat, tid: nat)
    requires |states| == |steps| + 1 && steps <= steps' && states <= states' && from <= |steps|
    ensures |Updates(steps', states', from, tid)| ==
            |Updates(steps, states, from, tid)| + |Updates(steps', states', |steps|, tid)|
  {
    var a, b := Updates(steps, states, from, tid), Updates(steps', states', |steps|, tid);
    forall k ensures k in Updates(steps', states', from, tid) <==> k in a + b {
      if 0 <= k < |steps| {
        assert Own(steps', tid, k) <==> Own(steps, tid, k);
        assert states'[k] == states[k];
      }
    }
    assert Updates(steps', states', from, tid) == a + b;
    assert a !! b;
  }

  /** One call sends such a record exactly if that is where the operation was. */
  lemma UpdatesOfCall(steps: seq<Step>, states: seq<State>, from: nat, tid: nat)
    requires |states| == |steps| + 1 && from < |steps| && Own(steps, tid, |steps| - 1)
    requires forall k :: from <= k < |steps| - 1 ==> !Own(steps, tid, k)
    requires tid in states[|steps| - 1].ops
    ensures |Updates(steps, states, from, tid)| ==
            if states[|steps| - 1].ops[tid].RepairPublish? then 1 else 0
  {
    var n := |steps| - 1;
    assert Updates(steps, states, from, tid) ==
           if states[n].ops[tid].RepairPublish? then {n} else {};
  }

  const NO_CHUNK: ChunkInfo := ChunkInfo([], [], 0, 0, [], 0, [])

  // ---- The shared state ----

  class World {
    const cfg: Config
    var s: State
    var script: seq<Turn>
    ghost var steps: seq<Step>
    ghost var states: seq<State>

    /** The state is the last one of a run. */
    ghost predicate Valid()
      reads this
    {
      RunOf(cfg, steps, states) && |states| == |steps| + 1 && s == states[|steps|]
    }

    /** State `k` of the run is one in which a request of the current call can have been served. */
    twostate predicate During(k: nat)
      reads this
    {
      old(|states|) <= k + 1 && k < |states|
    }

    /** The run so far is only extended, and what was sent stays sent. */
    twostate predicate Continues()
      reads this
    {
      old(states) <= states && old(steps) <= steps && old(s).sent <= s.sent
    }

    constructor (cfg: Config, script: seq<Turn>)
      requires ConfigOk(cfg)
      ensures Valid() && this.cfg == cfg && s == INIT && states == [INIT]
    {
      this.cfg, this.script, s, steps, states := cfg, script, INIT, [], [INIT];
    }

    method Do(step: Step)
      requires Valid() && Enabled(cfg, s, step)
      modifies this`s, this`steps, this`states
      ensures Valid() && s == Next(cfg, old(s), step)
      ensures states == old(states) + [s] && steps == old(steps) + [step]
      ensures |states| == |steps| + 1
    {
      hide Next, Enabled;
      s := Next(cfg, s, step);
      steps := steps + [step];
      states := states + [s];
    }

    /** Everybody else takes steps, each of which is skipped if it cannot happen. */
    method Interleave(tid: nat, others: seq<Step>)
      requires Valid() && tid in s.ops
      modifies this`s, this`steps, this`states
      ensures Valid() && Continues()
      ensures tid in s.ops && s.ops[tid] == old(s.ops[tid])
      ensures forall k :: old(|steps|) <= k < |steps| ==> !Own(steps, tid, k)
      ensures Updates(steps, states, old(|steps|), tid) == {}
    {
      hide Next, Enabled, RunOf;
      for i := 0 to |others|
        invariant Valid() && Continues()
        invariant tid in s.ops && s.ops[tid] == old(s.ops[tid])
        invariant forall k :: old(|steps|) <= k < |steps| ==> !Own(steps, tid, k)
      {
        assert cfg.chunkSize > 0 by { assert RunOf(cfg, steps, states); RunConfig(cfg, steps, states); }
        var step := others[i];
        if Enabled(cfg, s, step) && !(step.Client? && step.tid == tid) {
          OthersKeepOp(cfg, s, step, tid);
          OwnStays(steps, step, tid);
          Do(step);
        }
      }
    }

    method Begin(tid: nat, op: Op)
      requires Valid() && tid !in s.ops && Initial(op)
      modifies this`s, this`steps, this`states
      ensures Valid() && Continues() && Quiet(steps, states, old(|steps|), tid)
      ensures Updates(steps, states, old(|steps|), tid) == {}
      ensures |states| == old(|states|) + 1 && tid in s.ops && s.ops[tid] == op
    {
      RunConfig(cfg, steps, states);
      Do(Start(tid, op));
    }

    /** One step of operation `tid`, after any steps of the others. `at` is the state in which its
        request is served and `c` says how. */
    method Call(tid: nat) returns (at: State, c: Choice)
      requires Valid() && tid in s.ops
      modifies this
      ensures Valid() && Continues()
      ensures tid in at.ops && at.ops[tid] == old(s.ops[tid])
      ensures cfg.chunkSize > 0 && ClientEnabled(cfg, at, at.ops[tid], c)
      ensures s == Next(cfg, at, Client(tid, c))
      ensures 2 <= |states| == |steps| + 1 && old(|states|) < |states| && states[|states| - 2] == at
      ensures old(|steps|) < |steps| && steps[|steps| - 1] == Client(tid, c)
      ensures forall k :: old(|steps|) <= k < |steps| - 1 ==> !Own(steps, tid, k)
      ensures |Updates(steps, states, old(|steps|), tid)| ==
              if at.ops[tid].RepairPublish? then 1 else 0
      ensures Unanswered(steps, old(|steps|), tid) <==> !c.answered
    {
      hide Next, RunOf, ClientEnabled, Updates, Unanswered;
      ghost var from := |steps|;
      RunConfig(cfg, steps, states);
      var others: seq<Step> := [];
      c := NO_ANSWER;
      if script != [] {
        others, c := script[0].others, script[0].answer;
        script := script[1..];
      }
      Interleave(tid, others);
      if !ClientEnabled(cfg, s, s.ops[tid], c) {
        c := NO_ANSWER;
        NoAnswerEnabled(cfg, s, s.ops[tid]);
      }
      at := s;
      ClientMovesOnly(cfg, s, tid, c);
      OwnStays(steps, Client(tid, c), tid);
      Do(Client(tid, c));
      UpdatesOfCall(steps, states, from, tid);
      UnansweredCall(steps, from, tid, c);
    }
  }

  lemma RunConfig(cfg: Config, steps: seq<Step>, states: seq<State>)
    requires RunOf(cfg, steps, states)
    ensures ConfigOk(cfg)
  {
  }

  /** Not answering is always possible. */
  lemma NoAnswerEnabled(cfg: Config, s: State, op: Op)
    requires cfg.chunkSize > 0
    ensures ClientEnabled(cfg, s, op, NO_ANSWER)
  {
  }
}
