/** Every step keeps the durability invariant, and what follows for a completed put. */
module DurabilityRuns {
  import opened Bytes
  import opened Types
  import opened ChunkFormat
  import opened MetadataStore
  import opened Selection
  import opened Protocol
  import opened Integrity
  import opened IntegrityRuns
  import opened Durability

  // ---- Client steps ----

  /** One more node tried: its acknowledgement, if any, extends the replica list. */
  lemma CollectedGrows(cfg: Config, s: State, c: Bytes, nodes: seq<NodeInfo>, i: nat,
                       replicas: seq<ReplicaInfo>, version: nat)
    requires Collected(cfg, s, c, nodes, i, replicas) && i < |nodes|
    ensures Collected(cfg, s, c, nodes, i + 1, replicas)
    ensures (!s.corrupt ==> Held(cfg, s, nodes[i].address, c)) ==>
              Collected(cfg, s, c, nodes, i + 1, AddReplica(replicas, nodes[i], version))
  {
    hide Held;
    forall k | 0 <= k < |replicas|
      ensures exists j :: 0 <= j < i + 1 && j < |nodes| && replicas[k].address == nodes[j].address
    {
      var j :| 0 <= j < i && j < |nodes| && replicas[k].address == nodes[j].address;
    }
    if !s.corrupt ==> Held(cfg, s, nodes[i].address, c) {
      var more := AddReplica(replicas, nodes[i], version);
      forall k | 0 <= k < |more|
        ensures exists j :: 0 <= j < i + 1 && j < |nodes| && more[k].address == nodes[j].address
      {
        if k == |replicas| {
          assert more[k].address == nodes[i].address;
        }
      }
      if !s.repeated {
        forall a, b | 0 <= a < b < |more| ensures more[a].address != more[b].address {
          if b == |replicas| {
            var j :| 0 <= j < i && j < |nodes| && replicas[a].address == nodes[j].address;
            assert nodes[j].address != nodes[i].address;
          }
        }
      }
    }
  }

  lemma CollectedEmpty(cfg: Config, s: State, c: Bytes, nodes: seq<NodeInfo>)
    requires s.repeated || DistinctAddresses(nodes)
    requires |nodes| <= cfg.rf
    ensures Collected(cfg, s, c, nodes, 0, [])
  {
  }

  /** Server effects that led from `s` to `s2`, followed by a move of one program point. */
  lemma DurMove(cfg: Config, s: State, s2: State, s': State, tid: nat, op: Op)
    requires OpsOk(cfg, s) && Dur(cfg, s)
    requires Later(cfg, s, s2) && StaysPublished(s, s2) && MetaDur(cfg, s2) && s2.ops == s.ops
    requires forall m :: m in s2.sent && m !in s.sent ==> MsgDur(cfg, s2, m)
    requires s2.lost <= s'.lost && (s2.repeated ==> s'.repeated)
    requires s' == SetOp(s2.(repeated := s'.repeated, lost := s'.lost), tid, op)
    requires OpDur(cfg, s', op)
    ensures Dur(cfg, s')
  {
    hide OpDur, OpOk, Later, MsgDur, MetaDur, StaysPublished;
    QuietLater(cfg, s2, s');
    LaterTransitive(cfg, s, s2, s');
    SameTables(cfg, s2, s');
    forall m | m in s'.sent && m !in s.sent ensures MsgDur(cfg, s', m) {
      MsgLater(cfg, s2, s', m);
    }
    PublishedSame(s, s2, s');
    DurFrame(cfg, s, s');
  }

  lemma MsgLater(cfg: Config, s: State, s': State, m: Msg)
    requires Later(cfg, s, s') && MsgDur(cfg, s, m)
    ensures MsgDur(cfg, s', m)
  {
    hide Later, ChunkDur;
    if m.UpdateMsg? {
      ChunkLater(cfg, s, s', m.chunk);
    }
  }

  lemma PublishedSame(s: State, s2: State, s': State)
    requires StaysPublished(s, s2) && s'.meta == s2.meta
    ensures StaysPublished(s, s')
  {
  }

  lemma SendTables(cfg: Config, s: State, m: Msg)
    requires Dur(cfg, s)
    ensures var s1 := Send(s, m);
            Later(cfg, s, s1) && MetaDur(cfg, s1) && StaysPublished(s, s1)
  {
    hide Later, MetaDur, StaysPublished, SentDur, OpsDur;
    QuietLater(cfg, s, Send(s, m));
    SameTables(cfg, s, Send(s, m));
  }

  lemma Unmoved(cfg: Config, s: State)
    requires Dur(cfg, s)
    ensures Later(cfg, s, s) && MetaDur(cfg, s) && StaysPublished(s, s)
  {
    hide Held, ChunkDur;
  }

  lemma DurOf(cfg: Config, s: State, tid: nat)
    requires Dur(cfg, s) && tid in s.ops
    ensures OpDur(cfg, s, s.ops[tid])
  {
    hide OpDur, MetaDur, SentDur;
  }

  lemma PutWriteDur(cfg: Config, s: State, tid: nat, c: Choice)
    requires ConfigOk(cfg) && Inv(cfg, s) && Dur(cfg, s)
    requires tid in s.ops && s.ops[tid].PutWrite? && ClientEnabled(cfg, s, s.ops[tid], c)
    ensures Dur(cfg, PutStep(cfg, s, tid, c))
  {
    hide Core, OpsOk, PutOk, WriteOk, PutHeader, HistOk, Dur, Later, MetaDur, StaysPublished,
         Collected, RepsOk, Progress, Held, ServeWrite;
    OpOf(cfg, s, tid);
    DurOf(cfg, s, tid);
    HistOf(cfg, s);
    var op := s.ops[tid];
    var p, nodes, i, replicas := op.put, op.nodes, op.i, op.replicas;
    var s' := PutStep(cfg, s, tid, c);
    PutOid(cfg, s.hist, p);
    if i >= |nodes| {
      Unmoved(cfg, s);
      ProgressSame(s, s', p);
      CollectedIsReps(cfg, s, s', p.plan[p.k].chunkId, nodes, i, replicas);
      DurMove(cfg, s, s, s', tid, s'.ops[tid]);
    } else {
      var address, h, bytes := nodes[i].address, PutHeader(cfg, p), PutBytes(p);
      PutMessages(cfg, s.hist, s.corrupt, p, replicas);
      assert h.chunkId == p.plan[p.k].chunkId by { HeaderId(cfg, p); }
      var m := WriteMsg(address, h, bytes);
      var s1 := Send(s, m);
      SendTables(cfg, s, m);
      if c.answered {
        var (s2, ok) := ServeWrite(cfg, s1, address, h, bytes, c.now, c.wfate);
        WriteFrame(cfg, s, s1, address, h, bytes, c.now, c.wfate);
        WriteMove(cfg, s, s2, s', tid, p.plan[p.k].chunkId, nodes, i, replicas, 1);
        ProgressSame(s, s', p);
        DurMove(cfg, s, s2, s', tid, s'.ops[tid]);
      } else {
        WriteMove(cfg, s, s1, s', tid, p.plan[p.k].chunkId, nodes, i, replicas, 1);
        ProgressSame(s, s', p);
        DurMove(cfg, s, s1, s', tid, s'.ops[tid]);
      }
    }
  }

  lemma HeaderId(cfg: Config, p: PutState)
    requires p.k < |p.plan|
    ensures PutHeader(cfg, p).chunkId == p.plan[p.k].chunkId
  {
  }

  lemma ProgressSame(s: State, s': State, p: PutState)
    requires Progress(s, p) && s'.meta == s.meta
    ensures Progress(s', p)
  {
  }

  /** A finished replica list, seen from a state that differs in the program points only. */
  lemma CollectedIsReps(cfg: Config, s: State, s': State, c: Bytes, nodes: seq<NodeInfo>, i: nat,
                        replicas: seq<ReplicaInfo>)
    requires Collected(cfg, s, c, nodes, i, replicas) && s' == s.(ops := s'.ops)
    ensures RepsOk(cfg, s', c, replicas)
  {
    hide Held;
    SameHeld(cfg, s, s');
  }

  lemma SameHeld(cfg: Config, s: State, s': State)
    requires s' == s.(ops := s'.ops)
    ensures forall a, c :: Held(cfg, s, a, c) <==> Held(cfg, s', a, c)
  {
    hide Store.Read;
  }

  /** Sending and serving a write: later, with unchanged tables, and held if acknowledged. */
  lemma WriteFrame(cfg: Config, s: State, s1: State, address: Bytes, h: Header, bytes: Bytes,
                   now: nat, fate: Store.WriteFate)
    requires Dur(cfg, s) && s1 == Send(s, WriteMsg(address, h, bytes))
    requires WriteOk(cfg, s.hist, s.corrupt, h, bytes) && now < U64_LIMIT
    ensures var (s2, ok) := ServeWrite(cfg, s1, address, h, bytes, now, fate);
            && Later(cfg, s, s2) && MetaDur(cfg, s2) && StaysPublished(s, s2)
            && s2.ops == s.ops && s2.sent == s1.sent && s2.meta == s.meta && s2.hist == s.hist
            && s2.corrupt == s.corrupt && s2.repeated == s.repeated
            && (ok && !s2.corrupt ==> Held(cfg, s2, address, h.chunkId))
  {
    hide Later, MetaDur, StaysPublished, SentDur, OpsDur, WriteOk, Held;
    QuietLater(cfg, s, s1);
    WriteLater(cfg, s1, address, h, bytes, now, fate);
    var s2 := ServeWrite(cfg, s1, address, h, bytes, now, fate).0;
    LaterTransitive(cfg, s, s1, s2);
    SameTables(cfg, s, s2);
  }

  /** The replica list after one write attempt, in the state `s'` that ends the step. */
  lemma WriteMove(cfg: Config, s: State, s2: State, s': State, tid: nat, c: Bytes,
                  nodes: seq<NodeInfo>, i: nat, replicas: seq<ReplicaInfo>, version: nat)
    requires Collected(cfg, s, c, nodes, i, replicas) && i < |nodes|
    requires Later(cfg, s, s2) && tid in s'.ops
    requires s2.lost <= s'.lost
    requires s' == SetOp(s2.(lost := s'.lost), tid, s'.ops[tid])
    ensures Collected(cfg, s', c, nodes, i + 1, replicas)
    ensures (!s2.corrupt ==> Held(cfg, s2, nodes[i].address, c) || (nodes[i].address, c) in s'.lost)
              ==> Collected(cfg, s', c, nodes, i + 1, AddReplica(replicas, nodes[i], version))
  {
    hide Later, Collected;
    QuietLater(cfg, s2, s');
    LaterTransitive(cfg, s, s2, s');
    CollectedLater(cfg, s, s', c, nodes, i, replicas);
    CollectedGrows(cfg, s', c, nodes, i, replicas, version);
    assert Held(cfg, s2, nodes[i].address, c) && !s2.corrupt ==> Held(cfg, s', nodes[i].address, c)
      by { HeldLater(cfg, s2, s', nodes[i].address, c); }
  }

  lemma HeldLater(cfg: Config, s: State, s': State, a: Bytes, c: Bytes)
    requires Later(cfg, s, s')
    ensures Held(cfg, s, a, c) && !s'.corrupt ==> Held(cfg, s', a, c)
  {
    hide Held;
  }

  lemma PutPublishDur(cfg: Config, s: State, tid: nat, c: Choice)
    requires ConfigOk(cfg) && Inv(cfg, s) && Dur(cfg, s)
    requires tid in s.ops && s.ops[tid].PutPublish? && ClientEnabled(cfg, s, s.ops[tid], c)
    ensures Dur(cfg, PutStep(cfg, s, tid, c))
  {
    hide Core, OpsOk, PutOk, HistOk, Dur, Later, MetaDur, StaysPublished, RepsOk, Progress, Held,
         PutChunk, PutNext, MsgOk, ChunkDur, ServeUpdate;
    OpOf(cfg, s, tid);
    DurOf(cfg, s, tid);
    HistOf(cfg, s);
    var op := s.ops[tid];
    var p, replicas := op.put, op.replicas;
    var s' := PutStep(cfg, s, tid, c);
    var chunk := PutChunk(cfg, p, replicas);
    PutMessages(cfg, s.hist, s.corrupt, p, replicas);
    PutChunkDur(cfg, s, p, replicas);
    var m := UpdateMsg(p.objectId, chunk);
    var s1 := Send(s, m);
    SendTables(cfg, s, m);
    MsgLater(cfg, s, s1, m);
    if c.answered {
      var (s2, ok) := ServeUpdate(s1, p.objectId, chunk);
      UpdateFrame(cfg, s, s1, p.objectId, chunk);
      PutProgress(cfg, s, s1, p, chunk, replicas);
      ProgressSame(s2, s', PutNext(p, p.acked && ok));
      DurMove(cfg, s, s2, s', tid, s'.ops[tid]);
    } else {
      NoProgress(s', p);
      DurMove(cfg, s, s1, s', tid, s'.ops[tid]);
    }
  }

  lemma NoProgress(s: State, p: PutState)
    requires p.k < |p.plan|
    ensures Progress(s, PutNext(p, false))
  {
  }

  lemma PutChunkDur(cfg: Config, s: State, p: PutState, replicas: seq<ReplicaInfo>)
    requires p.k < |p.plan| && RepsOk(cfg, s, p.plan[p.k].chunkId, replicas)
    requires |replicas| >= Required(cfg.rf, cfg.policy)
    ensures ChunkDur(cfg, s, PutChunk(cfg, p, replicas))
    ensures MsgDur(cfg, s, UpdateMsg(p.objectId, PutChunk(cfg, p, replicas)))
  {
    hide RepsOk;
  }

  /** Sending and serving an update. */
  lemma UpdateFrame(cfg: Config, s: State, s1: State, id: Bytes, chunk: ChunkInfo)
    requires Inv(cfg, s) && Dur(cfg, s) && s1 == Send(s, UpdateMsg(id, chunk))
    requires MsgOk(cfg, s.hist, s.corrupt, UpdateMsg(id, chunk)) && ChunkDur(cfg, s, chunk)
    ensures var (s2, ok) := ServeUpdate(s1, id, chunk);
            && Later(cfg, s, s2) && MetaDur(cfg, s2) && StaysPublished(s, s2)
            && s2.ops == s.ops && s2.sent == s1.sent && s2.hist == s.hist
            && s2.lost == s.lost && s2.repeated == s.repeated
            && MsgDur(cfg, s2, UpdateMsg(id, chunk))
  {
    hide Later, MetaDur, StaysPublished, SentDur, OpsDur, ChunkDur, Core, OpsOk, ChunkOk, MetaOk;
    QuietLater(cfg, s, s1);
    SameTables(cfg, s, s1);
    ChunkLater(cfg, s, s1, chunk);
    MetaOf(cfg, s, s1);
    UpdateTables(cfg, s1, id, chunk);
    var s2 := ServeUpdate(s1, id, chunk).0;
    LaterTransitive(cfg, s, s1, s2);
    ChunkLater(cfg, s, s2, chunk);
    PublishedFirst(s, s1, s2);
  }

  lemma PublishedFirst(s: State, s1: State, s2: State)
    requires s1.meta == s.meta && s1.hist == s.hist && StaysPublished(s1, s2)
    ensures StaysPublished(s, s2)
  {
  }

  lemma MetaOf(cfg: Config, s: State, s1: State)
    requires Core(cfg, s) && s1.meta == s.meta && s1.hist == s.hist
    ensures MetaOk(cfg, s1)
  {
    hide HistOk, DisksOk, SentOk;
    MetaSame(cfg, s, s1);
  }

  /** An acknowledged update makes one more chunk of the put published. */
  lemma PutProgress(cfg: Config, s: State, s1: State, p: PutState, chunk: ChunkInfo,
                    replicas: seq<ReplicaInfo>)
    requires ConfigOk(cfg) && Inv(cfg, s) && PutOk(cfg, s.hist, p) && p.k < |p.plan|
    requires Progress(s, p) && chunk == PutChunk(cfg, p, replicas)
    requires s1 == Send(s, UpdateMsg(p.objectId, chunk))
    requires MsgOk(cfg, s.hist, s.corrupt, UpdateMsg(p.objectId, chunk))
    requires StaysPublished(s, ServeUpdate(s1, p.objectId, chunk).0)
    ensures var (s2, ok) := ServeUpdate(s1, p.objectId, chunk);
            Progress(s2, PutNext(p, p.acked && ok))
  {
    hide OpsOk, PutOk, ObjOk, ChunkOk, Core;
    var (s2, ok) := ServeUpdate(s1, p.objectId, chunk);
    PlanIndex(cfg, s.hist, p);
    if ok {
      MetaOf(cfg, s, s1);
      UpdatePublishes(cfg, s1, p.objectId, chunk);
    }
    hide ServeUpdate;
  }

  lemma PlanIndex(cfg: Config, h: History, p: PutState)
    requires PutOk(cfg, h, p) && p.k < |p.plan|
    ensures p.objectId in h.datas && p.plan[p.k].chunkIndex == p.k
  {
  }

  lemma PutDur(cfg: Config, s: State, tid: nat, c: Choice)
    requires ConfigOk(cfg) && Inv(cfg, s) && Dur(cfg, s)
    requires tid in s.ops && IsPut(s.ops[tid]) && ClientEnabled(cfg, s, s.ops[tid], c)
    ensures Dur(cfg, PutStep(cfg, s, tid, c))
  {
    hide Dur, Inv, ClientEnabled, ConfigOk;
    match s.ops[tid]
    case PutCreate(_, _) => PutCreateDur(cfg, s, tid, c);
    case PutSelect(_) => PutSelectDur(cfg, s, tid, c);
    case PutWrite(_, _, _, _) => PutWriteDur(cfg, s, tid, c);
    case PutPublish(_, _) => PutPublishDur(cfg, s, tid, c);
    case PutAbort(_) => PutAbortDur(cfg, s, tid, c);
    case PutDone(_) =>
  }

  lemma PutCreateDur(cfg: Config, s: State, tid: nat, c: Choice)
    requires ConfigOk(cfg) && Inv(cfg, s) && Dur(cfg, s)
    requires tid in s.ops && s.ops[tid].PutCreate? && ClientEnabled(cfg, s, s.ops[tid], c)
    ensures Dur(cfg, PutStep(cfg, s, tid, c))
  {
    hide Core, OpsOk, Dur, Later, MetaDur, StaysPublished, FreshIds, Births;
    OpOf(cfg, s, tid);
    var op := s.ops[tid];
    var s' := PutStep(cfg, s, tid, c);
    var m := CreateMsg(op.filename, op.data);
    var s1 := Send(s, m);
    SendOk(cfg, s, m);
    SendTables(cfg, s, m);
    if c.answered {
      FreshAfterSend(cfg, s, m, op.data, c);
      CreateFrame(cfg, s, s1, op.filename, op.data, c.id, c.uuids);
      DurMove(cfg, s, ServeCreate(cfg, s1, op.filename, op.data, c.id, c.uuids).0, s', tid,
              s'.ops[tid]);
    } else {
      DurMove(cfg, s, s1, s', tid, Ended);
    }
  }

  lemma CreateFrame(cfg: Config, s: State, s1: State, filename: Bytes, data: Bytes, id: Bytes,
                    uuids: seq<Bytes>)
    requires ConfigOk(cfg) && Core(cfg, s1) && MetaDur(cfg, s1) && FreshIds(cfg, s1, data, id, uuids)
    requires CreateMsg(filename, data) in s1.sent
    requires Later(cfg, s, s1) && s1.meta == s.meta && s1.hist == s.hist
    ensures var s2 := ServeCreate(cfg, s1, filename, data, id, uuids).0;
            && Later(cfg, s, s2) && MetaDur(cfg, s2) && StaysPublished(s, s2)
            && s2.ops == s1.ops && s2.sent == s1.sent
            && s2.lost == s1.lost && s2.repeated == s1.repeated
  {
    hide Core, Later, MetaDur, StaysPublished, FreshIds, Births, PutOk;
    ServeCreateOk(cfg, s1, filename, data, id, uuids);
    CreateTables(cfg, s1, filename, data, id, uuids);
    var s2 := ServeCreate(cfg, s1, filename, data, id, uuids).0;
    LaterTransitive(cfg, s, s1, s2);
    PublishedFirst(s, s1, s2);
  }

  lemma PutSelectDur(cfg: Config, s: State, tid: nat, c: Choice)
    requires ConfigOk(cfg) && Inv(cfg, s) && Dur(cfg, s)
    requires tid in s.ops && s.ops[tid].PutSelect? && ClientEnabled(cfg, s, s.ops[tid], c)
    ensures Dur(cfg, PutStep(cfg, s, tid, c))
  {
    hide Core, OpsOk, Dur, Later, MetaDur, StaysPublished, Progress, Collected, SelectAnswer,
         DistinctAddresses;
    DurOf(cfg, s, tid);
    var p := s.ops[tid].put;
    var s' := PutStep(cfg, s, tid, c);
    Unmoved(cfg, s);
    ProgressSame(s, s', p);
    if p.k < |p.plan| && c.answered {
      AnswerBounded(s.meta.nodes, cfg.strategy, cfg.rf, c.order, c.counter, c.nodes);
      CollectedEmpty(cfg, s', p.plan[p.k].chunkId, c.nodes);
    }
    DurMove(cfg, s, s, s', tid, s'.ops[tid]);
  }

  lemma PutAbortDur(cfg: Config, s: State, tid: nat, c: Choice)
    requires ConfigOk(cfg) && Inv(cfg, s) && Dur(cfg, s)
    requires tid in s.ops && s.ops[tid].PutAbort? && ClientEnabled(cfg, s, s.ops[tid], c)
    ensures Dur(cfg, PutStep(cfg, s, tid, c))
  {
    hide Core, OpsOk, Dur, Later, MetaDur, StaysPublished;
    var id := s.ops[tid].put.objectId;
    var s' := PutStep(cfg, s, tid, c);
    var m := DeleteByIdMsg(id);
    var s1 := Send(s, m);
    SendTables(cfg, s, m);
    DeleteFrame(cfg, s, s1, id);
    DurMove(cfg, s, if c.answered then ServeDelete(s1, id) else s1, s', tid, Ended);
  }

  lemma DeleteFrame(cfg: Config, s: State, s1: State, id: Bytes)
    requires Later(cfg, s, s1) && MetaDur(cfg, s1) && s1.meta == s.meta && s1.hist == s.hist
    ensures var s2 := ServeDelete(s1, id);
            Later(cfg, s, s2) && MetaDur(cfg, s2) && StaysPublished(s, s2)
  {
    hide Later, MetaDur, StaysPublished;
    DeleteTables(cfg, s1, id);
    LaterTransitive(cfg, s, s1, ServeDelete(s1, id));
    PublishedFirst(s, s1, ServeDelete(s1, id));
  }

  lemma GetDur(cfg: Config, s: State, tid: nat, c: Choice)
    requires Inv(cfg, s) && Dur(cfg, s) && tid in s.ops && IsGet(s.ops[tid])
    ensures Dur(cfg, GetStep(cfg, s, tid, c))
  {
    hide Core, OpsOk, Dur, Later, MetaDur, StaysPublished, Store.Read, ClientAccepts, Located;
    var s' := GetStep(cfg, s, tid, c);
    Unmoved(cfg, s);
    DurOf(cfg, s, tid);
    match s.ops[tid]
    case GetLocate(filename) =>
      LocateDur(cfg, s, s', filename);
      DurMove(cfg, s, s, s', tid, s'.ops[tid]);
    case GetRead(obj, _, _) =>
      SameLocated(cfg, s, s', obj);
      DurMove(cfg, s, s, s', tid, s'.ops[tid]);
    case GetDone(_, _) =>
  }

  lemma LocateDur(cfg: Config, s: State, s': State, filename: Bytes)
    requires MetaDur(cfg, s) && s' == s.(ops := s'.ops)
    ensures Locate(s.meta, filename).Some? ==> Located(cfg, s', Locate(s.meta, filename).value)
  {
    hide ChunkDur;
    var obj := Locate(s.meta, filename);
    if obj.Some? {
      assert Located(cfg, s, obj.value);
      SameLocated(cfg, s, s', obj.value);
    }
  }

  lemma SameLocated(cfg: Config, s: State, s': State, obj: ObjectInfo)
    requires s' == s.(ops := s'.ops)
    ensures Located(cfg, s, obj) ==> Located(cfg, s', obj)
  {
    hide Later, Located;
    QuietLater(cfg, s, s');
    if Located(cfg, s, obj) {
      LocatedLater(cfg, s, s', obj);
    }
  }

  lemma RepairWriteDur(cfg: Config, s: State, tid: nat, c: Choice)
    requires ConfigOk(cfg) && Inv(cfg, s) && Dur(cfg, s)
    requires tid in s.ops && s.ops[tid].RepairWrite? && ClientEnabled(cfg, s, s.ops[tid], c)
    ensures Dur(cfg, RepairStep(cfg, s, tid, c))
  {
    hide Core, OpsOk, RepairOk, WriteOk, RepairHeader, HistOk, ChunksOk, Dur, Later, MetaDur,
         StaysPublished, Collected, RepsOk, Held, ServeWrite;
    OpOf(cfg, s, tid);
    DurOf(cfg, s, tid);
    HistOf(cfg, s);
    var op := s.ops[tid];
    var rs, bytes, nodes, i, replicas := op.repair, op.bytes, op.nodes, op.i, op.replicas;
    RepairHead(cfg, s.hist, s.corrupt, rs, bytes);
    var s' := RepairStep(cfg, s, tid, c);
    var id := rs.todo[0].chunkId;
    if i >= |nodes| {
      Unmoved(cfg, s);
      CollectedIsReps(cfg, s, s', id, nodes, i, replicas);
      DurMove(cfg, s, s, s', tid, s'.ops[tid]);
    } else {
      var at := if nodes[i].id == rs.local.id then 0 else c.now;
      var address := RepairAddress(rs.local, nodes[i]);
      var h := RepairHeader(cfg, rs.todo[0], bytes, at);
      assert h.chunkId == id by { RepairHeaderId(cfg, rs.todo[0], bytes, at); }
      RepairMessages(cfg, s.hist, s.corrupt, rs, bytes, at, []);
      var m := WriteMsg(address, h, bytes);
      var s1 := Send(s, m);
      SendTables(cfg, s, m);
      if c.answered {
        var (s2, ok) := ServeWrite(cfg, s1, address, h, bytes, c.now, c.wfate);
        WriteFrame(cfg, s, s1, address, h, bytes, c.now, c.wfate);
        WriteMove(cfg, s, s2, s', tid, id, nodes, i, replicas, rs.todo[0].version);
        DurMove(cfg, s, s2, s', tid, s'.ops[tid]);
      } else {
        WriteMove(cfg, s, s1, s', tid, id, nodes, i, replicas, 0);
        DurMove(cfg, s, s1, s', tid, s'.ops[tid]);
      }
    }
  }

  lemma RepairHeaderId(cfg: Config, c: ChunkInfo, bytes: Bytes, at: nat)
    ensures RepairHeader(cfg, c, bytes, at).chunkId == c.chunkId
  {
  }

  lemma RepairPublishDur(cfg: Config, s: State, tid: nat, c: Choice)
    requires ConfigOk(cfg) && Inv(cfg, s) && Dur(cfg, s)
    requires tid in s.ops && s.ops[tid].RepairPublish? && ClientEnabled(cfg, s, s.ops[tid], c)
    ensures Dur(cfg, RepairStep(cfg, s, tid, c))
  {
    hide Core, OpsOk, RepairOk, HistOk, ChunksOk, Dur, Later, MetaDur, StaysPublished, RepsOk,
         RepairChunk, MsgOk, ChunkDur, ServeUpdate;
    OpOf(cfg, s, tid);
    DurOf(cfg, s, tid);
    HistOf(cfg, s);
    var op := s.ops[tid];
    var rs, replicas := op.repair, op.replicas;
    RepairHead(cfg, s.hist, s.corrupt, rs, op.bytes);
    var s' := RepairStep(cfg, s, tid, c);
    RepairMessages(cfg, s.hist, s.corrupt, rs, op.bytes, 0, replicas);
    var chunk := RepairChunk(rs.todo[0], replicas);
    RepairChunkDur(cfg, s, rs.todo[0], replicas);
    var m := UpdateMsg(chunk.objectId, chunk);
    var s1 := Send(s, m);
    SendTables(cfg, s, m);
    MsgLater(cfg, s, s1, m);
    UpdateFrame(cfg, s, s1, chunk.objectId, chunk);
    DurMove(cfg, s, if c.answered then ServeUpdate(s1, chunk.objectId, chunk).0 else s1, s', tid,
            s'.ops[tid]);
  }

  lemma RepairChunkDur(cfg: Config, s: State, c: ChunkInfo, replicas: seq<ReplicaInfo>)
    requires RepsOk(cfg, s, c.chunkId, replicas)
    requires |replicas| >= Required(cfg.rf, cfg.policy)
    ensures ChunkDur(cfg, s, RepairChunk(c, replicas))
    ensures MsgDur(cfg, s, UpdateMsg(RepairChunk(c, replicas).objectId, RepairChunk(c, replicas)))
  {
    hide RepsOk;
  }

  lemma RepairDur(cfg: Config, s: State, tid: nat, c: Choice)
    requires ConfigOk(cfg) && Inv(cfg, s) && Dur(cfg, s)
    requires tid in s.ops && IsRepair(s.ops[tid]) && ClientEnabled(cfg, s, s.ops[tid], c)
    ensures Dur(cfg, RepairStep(cfg, s, tid, c))
  {
    hide Dur, Inv, ClientEnabled, ConfigOk;
    match s.ops[tid]
    case RepairScan(_) => RepairScanDur(cfg, s, tid, c);
    case RepairFetch(_, _) => RepairScanDur(cfg, s, tid, c);
    case RepairSelect(_, _) => RepairSelectDur(cfg, s, tid, c);
    case RepairWrite(_, _, _, _, _) => RepairWriteDur(cfg, s, tid, c);
    case RepairPublish(_, _, _) => RepairPublishDur(cfg, s, tid, c);
  }

  lemma RepairScanDur(cfg: Config, s: State, tid: nat, c: Choice)
    requires Inv(cfg, s) && Dur(cfg, s) && tid in s.ops
    requires s.ops[tid].RepairScan? || s.ops[tid].RepairFetch?
    ensures Dur(cfg, RepairStep(cfg, s, tid, c))
  {
    hide Core, OpsOk, Dur, Later, MetaDur, StaysPublished, Store.Read;
    Unmoved(cfg, s);
    var s' := RepairStep(cfg, s, tid, c);
    DurMove(cfg, s, s, s', tid, s'.ops[tid]);
  }

  lemma RepairSelectDur(cfg: Config, s: State, tid: nat, c: Choice)
    requires Inv(cfg, s) && Dur(cfg, s) && tid in s.ops && s.ops[tid].RepairSelect?
    requires ConfigOk(cfg) && ClientEnabled(cfg, s, s.ops[tid], c)
    ensures Dur(cfg, RepairStep(cfg, s, tid, c))
  {
    hide Core, OpsOk, Dur, Later, MetaDur, StaysPublished, Collected, DistinctAddresses, SelectAnswer;
    var s' := RepairStep(cfg, s, tid, c);
    Unmoved(cfg, s);
    if s'.ops[tid].RepairWrite? && s'.ops[tid].repair.todo != [] {
      AnswerBounded(s.meta.nodes, LeastUsed, cfg.rf, c.order, c.counter, c.nodes);
      CollectedEmpty(cfg, s', s'.ops[tid].repair.todo[0].chunkId, c.nodes);
    }
    DurMove(cfg, s, s, s', tid, s'.ops[tid]);
  }

  lemma DelChunksDur(cfg: Config, s: State, tid: nat, c: Choice)
    requires Inv(cfg, s) && Dur(cfg, s) && tid in s.ops && s.ops[tid].DelChunks?
    ensures Dur(cfg, DeleteStep(s, tid, c))
  {
    hide Core, OpsOk, Dur, Later, MetaDur, StaysPublished, Store.DeleteFiles;
    var s' := DeleteStep(s, tid, c);
    var obj, k, r := s.ops[tid].obj, s.ops[tid].k, s.ops[tid].r;
    if k < |obj.chunks| && r < |obj.chunks[k].replicas| {
      var address, id := obj.chunks[k].replicas[r].address, obj.chunks[k].chunkId;
      var s1 := Send(s, DeleteChunkMsg(address, id));
      SendTables(cfg, s, DeleteChunkMsg(address, id));
      DeleteChunkFrame(cfg, s, s1, address, id, c.dfate);
      DurMove(cfg, s, if c.answered then ServeDeleteChunk(s1, address, id, c.dfate) else s1, s',
              tid, s'.ops[tid]);
    } else {
      Unmoved(cfg, s);
      DurMove(cfg, s, s, s', tid, s'.ops[tid]);
    }
  }

  lemma DelNameDur(cfg: Config, s: State, tid: nat, c: Choice)
    requires Inv(cfg, s) && Dur(cfg, s) && tid in s.ops && s.ops[tid].DelName?
    ensures Dur(cfg, DeleteStep(s, tid, c))
  {
    hide Core, OpsOk, Dur, Later, MetaDur, StaysPublished;
    var s' := DeleteStep(s, tid, c);
    var filename := s.ops[tid].filename;
    var s1 := Send(s, DeleteByNameMsg(filename));
    SendTables(cfg, s, DeleteByNameMsg(filename));
    if c.answered && filename in s.meta.names {
      var s2 := Send(s1, DeleteByIdMsg(s.meta.names[filename]));
      QuietLater(cfg, s, s2);
      SameTablesOf(cfg, s, s2);
      DurMove(cfg, s, s2, s', tid, s'.ops[tid]);
    } else {
      DurMove(cfg, s, s1, s', tid, Ended);
    }
  }

  lemma DeleteDur(cfg: Config, s: State, tid: nat, c: Choice)
    requires Inv(cfg, s) && Dur(cfg, s) && tid in s.ops
    requires !IsPut(s.ops[tid]) && !IsGet(s.ops[tid]) && !IsRepair(s.ops[tid])
    ensures Dur(cfg, DeleteStep(s, tid, c))
  {
    hide Core, OpsOk, Dur, Later, MetaDur, StaysPublished, DeleteObject;
    match s.ops[tid]
    case DelLocate(_) =>
      Unmoved(cfg, s);
      var s' := DeleteStep(s, tid, c);
      DurMove(cfg, s, s, s', tid, s'.ops[tid]);
    case DelChunks(_, _, _) => DelChunksDur(cfg, s, tid, c);
    case DelName(_) => DelNameDur(cfg, s, tid, c);
    case DelFinish(id) =>
      Unmoved(cfg, s);
      DeleteFrame(cfg, s, s, id);
      DurMove(cfg, s, if c.answered then ServeDelete(s, id) else s, DeleteStep(s, tid, c), tid, Ended);
    case Ended =>
  }

  lemma SameTablesOf(cfg: Config, s: State, s': State)
    requires Dur(cfg, s) && Later(cfg, s, s') && s'.meta.objects == s.meta.objects
    ensures MetaDur(cfg, s') && StaysPublished(s, s')
  {
    hide Later, MetaDur, StaysPublished, SentDur, OpsDur;
    SameTables(cfg, s, s');
  }

  lemma DeleteChunkFrame(cfg: Config, s: State, s1: State, address: Bytes, id: Bytes,
                         fate: Store.DeleteFate)
    requires Dur(cfg, s) && Later(cfg, s, s1) && s1.meta == s.meta
    requires DeleteChunkMsg(address, id) in s1.sent
    ensures var s2 := ServeDeleteChunk(s1, address, id, fate);
            Later(cfg, s, s2) && MetaDur(cfg, s2) && StaysPublished(s, s2)
  {
    hide Later, MetaDur, StaysPublished, Dur;
    var s2 := ServeDeleteChunk(s1, address, id, fate);
    DeleteChunkLater(cfg, s1, address, id, fate);
    LaterTransitive(cfg, s, s1, s2);
    SameTablesOf(cfg, s, s2);
  }

  // ---- Server steps ----

  lemma ServerDur(cfg: Config, s: State, step: Step)
    requires ConfigOk(cfg) && Inv(cfg, s) && Dur(cfg, s) && Enabled(cfg, s, step)
    requires !step.Start? && !step.Client?
    ensures var s' := Next(cfg, s, step);
            && Later(cfg, s, s') && MetaDur(cfg, s') && StaysPublished(s, s')
            && s'.ops == s.ops
            && (forall m :: m in s'.sent && m !in s.sent ==> !m.UpdateMsg?)
  {
    hide Core, OpsOk, Dur, Later, MetaDur, StaysPublished, FreshIds, Births, WriteOk, Store.Read,
         Store.WriteFiles, Store.Image, Store.DeleteFiles, MsgOk, ChunkDur;
    var s' := Next(cfg, s, step);
    Unmoved(cfg, s);
    match step
    case LateCreate(filename, data, c) => CreateFrame(cfg, s, s, filename, data, c.id, c.uuids);
    case LateWrite(address, h, payload, c) =>
      SentMsg(cfg, s, WriteMsg(address, h, payload));
      WriteLater(cfg, s, address, h, payload, c.now, c.wfate);
      SameTablesOf(cfg, s, s');
    case LateUpdate(id, chunk) =>
      SentMsg(cfg, s, UpdateMsg(id, chunk));
      SentChunk(cfg, s, id, chunk);
      assert Send(s, UpdateMsg(id, chunk)) == s by {
        assert s.sent + {UpdateMsg(id, chunk)} == s.sent;
      }
      UpdateFrame(cfg, s, s, id, chunk);
    case LateLookup(filename) =>
      QuietLater(cfg, s, s');
      SameTablesOf(cfg, s, s');
    case LateDelete(id) => DeleteFrame(cfg, s, s, id);
    case LateDeleteChunk(address, id, c) => DeleteChunkFrame(cfg, s, s, address, id, c.dfate);
    case ChangeNodes(nodes) =>
      QuietLater(cfg, s, s');
      SameTablesOf(cfg, s, s');
    case Wipe(address) =>
      DiskFaultLater(cfg, s, address, s');
      SameTablesOf(cfg, s, s');
    case Damage(address, files) =>
      DiskFaultLater(cfg, s, address, s');
      SameTablesOf(cfg, s, s');
  }

  lemma SentChunk(cfg: Config, s: State, id: Bytes, chunk: ChunkInfo)
    requires Dur(cfg, s) && UpdateMsg(id, chunk) in s.sent
    ensures ChunkDur(cfg, s, chunk)
  {
    hide ChunkDur, MetaDur, OpsDur;
    assert MsgDur(cfg, s, UpdateMsg(id, chunk));
  }

  lemma StepDur(cfg: Config, s: State, step: Step)
    requires ConfigOk(cfg) && Inv(cfg, s) && Dur(cfg, s) && Enabled(cfg, s, step)
    ensures Dur(cfg, Next(cfg, s, step))
  {
    hide Core, OpsOk, Dur, Later, MetaDur, StaysPublished, OpDur, ClientEnabled, PutStep, GetStep,
         RepairStep, DeleteStep;
    var s' := Next(cfg, s, step);
    match step
    case Client(tid, c) =>
      var op := s.ops[tid];
      if IsPut(op) { PutDur(cfg, s, tid, c); }
      else if IsGet(op) { GetDur(cfg, s, tid, c); }
      else if IsRepair(op) { RepairDur(cfg, s, tid, c); }
      else { DeleteDur(cfg, s, tid, c); }
    case Start(tid, op) =>
      Unmoved(cfg, s);
      StartDur(cfg, s', op);
      DurMove(cfg, s, s, s', tid, op);
    case _ =>
      ServerDur(cfg, s, step);
      DurFrame(cfg, s, s');
  }

  lemma StartDur(cfg: Config, s: State, op: Op)
    requires Initial(op)
    ensures OpDur(cfg, s, op)
  {
  }

  lemma {:induction false} RunDur(cfg: Config, steps: seq<Step>, states: seq<State>, n: nat)
    requires RunOf(cfg, steps, states) && n < |states|
    ensures Dur(cfg, states[n])
  {
    hide Dur, Inv, Next, Enabled;
    if n == 0 {
      InitDur(cfg);
    } else {
      RunDur(cfg, steps, states, n - 1);
      RunInv(cfg, steps, states, n - 1);
      StepDur(cfg, states[n - 1], steps[n - 1]);
    }
  }

  lemma InitDur(cfg: Config)
    ensures Dur(cfg, INIT)
  {
  }

  // ---- Main results ----

  /** Every replica list ever sent to the metadata service, by a put or by a repair: it is for the
      chunk's own object and slice, it has a quorum of entries, exactly the first is the primary,
      no address occurs twice unless a selection repeated one, and every entry's node holds the
      chunk's slice unless it is lost or was asked to delete it. */
  lemma UpdatesCarryQuorums(cfg: Config, steps: seq<Step>, states: seq<State>, n: nat, id: Bytes,
                            chunk: ChunkInfo)
    requires RunOf(cfg, steps, states) && n < |states|
    requires UpdateMsg(id, chunk) in states[n].sent
    ensures ChunkOk(cfg, states[n].hist, chunk) && chunk.objectId == id
    ensures chunk.checksum == cfg.hash(states[n].hist.births[chunk.chunkId].bytes)
    ensures RepsOk(cfg, states[n], chunk.chunkId, chunk.replicas)
    ensures |chunk.replicas| >= Required(cfg.rf, cfg.policy)
  {
    hide Next, Enabled, Core, OpsOk, Dur, RepsOk;
    RunInv(cfg, steps, states, n);
    RunDur(cfg, steps, states, n);
    SentMsg(cfg, states[n], UpdateMsg(id, chunk));
    SentChunk(cfg, states[n], id, chunk);
  }

  /** Round robin has enough nodes online, and its counter does not wrap during the call. */
  ghost predicate RoomFor(nodes: map<Bytes, NodeInfo>, count: nat, counter: nat) {
    count <= |OnlineIds(nodes)| && counter + count <= U64_LIMIT
  }

  lemma SelectsDistinct(nodes: map<Bytes, NodeInfo>, strategy: Strategy, count: nat,
                        order: seq<Bytes>, counter: nat, selected: seq<NodeInfo>)
    requires SelectAnswer(nodes, strategy, count, order, counter, selected)
    requires OneAddressEach(nodes) && (strategy.RoundRobin? ==> RoomFor(nodes, count, counter))
    ensures DistinctAddresses(selected)
  {
    hide RoundRobinPicks, PickIndex, Online;
    if strategy.RoundRobin? {
      assert OnlineIds(nodes) == OnlineAmong(nodes, order);
      OnlineCard(nodes, order);
      OnlineApart(nodes, order);
      if Online(nodes, order) != [] {
        PicksApart(Online(nodes, order), counter, count);
      }
    } else {
      forall i, j | 0 <= i < j < |selected| ensures selected[i].address != selected[j].address {
        assert selected[i] in selected && selected[j] in selected;
      }
    }
  }

  lemma PicksApart(online: seq<NodeInfo>, counter: nat, count: nat)
    requires online != [] && counter + count <= U64_LIMIT && count <= |online|
    requires DistinctAddresses(online)
    ensures DistinctAddresses(RoundRobinPicks(online, counter, count))
  {
    hide PickIndex;
    RoundRobinDistinct(online, counter, count);
  }

  lemma PutRepeatsNothing(cfg: Config, s: State, tid: nat, c: Choice)
    requires cfg.chunkSize > 0 && tid in s.ops && ClientEnabled(cfg, s, s.ops[tid], c)
    requires !s.repeated && OneAddressEach(s.meta.nodes)
    requires cfg.strategy.RoundRobin? ==> RoomFor(s.meta.nodes, cfg.rf, c.counter)
    ensures !PutStep(cfg, s, tid, c).repeated
  {
    hide OneAddressEach, FreshIds, Births, Store.WriteFiles, Store.Image, PutHeader, PutBytes,
         PutChunk, UpdateChunk, DeleteObject, CreateObject, SelectAnswer, DistinctAddresses,
         RoomFor;
    if c.answered && s.ops[tid].PutSelect? {
      SelectsDistinct(s.meta.nodes, cfg.strategy, cfg.rf, c.order, c.counter, c.nodes);
    }
  }

  lemma RepairRepeatsNothing(cfg: Config, s: State, tid: nat, c: Choice)
    requires cfg.chunkSize > 0 && tid in s.ops && ClientEnabled(cfg, s, s.ops[tid], c)
    requires !s.repeated && OneAddressEach(s.meta.nodes)
    ensures !RepairStep(cfg, s, tid, c).repeated
  {
    hide OneAddressEach, Store.WriteFiles, Store.Image, Store.Read, RepairHeader, RepairChunk,
         ScanAnswer, UpdateChunk, SelectAnswer, DistinctAddresses, FreshIds;
    if c.answered && s.ops[tid].RepairSelect? {
      SelectsDistinct(s.meta.nodes, LeastUsed, cfg.rf, c.order, c.counter, c.nodes);
    }
  }

  lemma StepRepeatsNothing(cfg: Config, s: State, step: Step)
    requires cfg.chunkSize > 0 && Enabled(cfg, s, step) && !s.repeated
    requires OneAddressEach(s.meta.nodes)
    requires cfg.strategy.RoundRobin? && step.Client? ==>
               RoomFor(s.meta.nodes, cfg.rf, step.c.counter)
    ensures !Next(cfg, s, step).repeated
  {
    hide OneAddressEach, FreshIds, Births, Store.WriteFiles, Store.Image, Store.Read, PutStep,
         RepairStep, ClientAccepts, Locate, Store.DeleteFiles, UpdateChunk, DeleteObject,
         CreateObject, ClientEnabled, RoomFor;
    if step.Client? {
      PutRepeatsNothing(cfg, s, step.tid, step.c);
      RepairRepeatsNothing(cfg, s, step.tid, step.c);
    }
  }

  /** With no two nodes registered at one address, no selection of any run repeats an address; for
      round robin as long as the replication factor is at most the number of nodes online and the
      counter does not wrap during a selection. */
  lemma {:induction false} NeverRepeated(cfg: Config, steps: seq<Step>, states: seq<State>, n: nat)
    requires RunOf(cfg, steps, states) && n < |states|
    requires forall i :: 0 <= i < n ==> OneAddressEach(states[i].meta.nodes)
    requires cfg.strategy.RoundRobin? ==>
               forall i :: 0 <= i < n && steps[i].Client? ==>
                 RoomFor(states[i].meta.nodes, cfg.rf, steps[i].c.counter)
    ensures !states[n].repeated
  {
    hide Next, Enabled, OneAddressEach, RoomFor;
    if n > 0 {
      NeverRepeated(cfg, steps, states, n - 1);
      StepRepeatsNothing(cfg, states[n - 1], steps[n - 1]);
    }
  }
}
