/** Runs in which a repair lowers the number of live replicas of a chunk, for every configuration
    that allows it. */
module RepairTraces {
  import opened Bytes
  import opened Types
  import opened ChunkFormat
  import opened Planner
  import opened MetadataStore
  import opened Selection
  import opened Scan
  import opened Protocol
  import opened Integrity
  import opened Durability
  import opened DurabilityRuns
  import opened Replicas
  import opened RepairRuns

  // ---- The cluster: as many nodes as the replication factor, all online ----

  function Node(i: nat): NodeInfo {
    NodeInfo(Zeros(i + 1), Zeros(i + 1), true, 0)
  }

  function Nodes(n: nat): (nodes: seq<NodeInfo>)
    ensures |nodes| == n && forall i :: 0 <= i < n ==> nodes[i] == Node(i)
  {
    seq(n, i requires 0 <= i => Node(i))
  }

  function Ids(n: nat): (ids: seq<Bytes>)
    ensures |ids| == n && forall i :: 0 <= i < n ==> ids[i] == Zeros(i + 1)
  {
    seq(n, i requires 0 <= i => Zeros(i + 1))
  }

  function Table(n: nat): map<Bytes, NodeInfo> {
    map id | id in Ids(n) :: Node(|id| - 1)
  }

  lemma TableAt(n: nat, i: nat)
    requires i < n
    ensures Zeros(i + 1) in Table(n) && Table(n)[Zeros(i + 1)] == Node(i)
  {
    assert Ids(n)[i] in Ids(n);
  }

  lemma {:induction false} AllOnline(n: nat, k: nat)
    requires k <= n
    ensures forall x :: x in Ids(n)[..k] ==> x in Table(n)
    ensures Online(Table(n), Ids(n)[..k]) == Nodes(n)[..k]
  {
    hide Table;
    forall x | x in Ids(n)[..k] ensures x in Table(n) {
      var i :| 0 <= i < k && Ids(n)[i] == x;
      TableAt(n, i);
    }
    if k > 0 {
      AllOnline(n, k - 1);
      assert Ids(n)[..k][..k - 1] == Ids(n)[..k - 1];
      TableAt(n, k - 1);
    }
  }

  lemma PicksItself(i: nat, n: nat)
    requires i < n < U32_LIMIT
    ensures PickIndex(0 + i, n) == i
  {
    hide PickIndex;
    NoWrap(i, n);
    QuotientUnique(i, n, 0, i);
  }

  lemma PicksAreAll(n: nat)
    requires 0 < n < U32_LIMIT
    ensures RoundRobinPicks(Nodes(n), 0, n) == Nodes(n)
  {
    hide PickIndex, Node;
    var nodes := Nodes(n);
    var picks := RoundRobinPicks(nodes, 0, n);
    forall i | 0 <= i < n ensures picks[i] == nodes[i] {
      PicksItself(i, n);
    }
  }

  lemma NodesSelectable(n: nat, strategy: Strategy)
    ensures Selectable(Table(n), strategy, n, Nodes(n)) && DistinctIds(Nodes(n))
  {
    hide Table;
    var nodes := Nodes(n);
    forall x | x in nodes ensures x.id in Table(n) && Table(n)[x.id] == x && x.online {
      var i :| 0 <= i < n && nodes[i] == x;
      TableAt(n, i);
    }
  }

  lemma IdsEnumerate(n: nat)
    ensures Enumerates(Ids(n), Table(n).Keys)
  {
  }

  lemma OnlineIsAll(n: nat)
    ensures forall x :: x in Ids(n) ==> x in Table(n)
    ensures Online(Table(n), Ids(n)) == Nodes(n)
  {
    hide Online, Table;
    AllOnline(n, n);
    assert Ids(n)[..n] == Ids(n) && Nodes(n)[..n] == Nodes(n);
  }

  /** Every strategy can answer with all of them. */
  lemma AnyStrategySelects(n: nat, strategy: Strategy)
    requires 0 < n < U32_LIMIT
    ensures SelectAnswer(Table(n), strategy, n, Ids(n), 0, Nodes(n))
  {
    hide RoundRobinPicks, Online, Selectable, Table, Enumerates, Ids, Nodes;
    NodesSelectable(n, strategy);
    IdsEnumerate(n);
    OnlineIsAll(n);
    PicksAreAll(n);
  }

  // ---- Runs under construction ----

  datatype Run = Run(steps: seq<Step>, states: seq<State>)

  ghost predicate Good(cfg: Config, r: Run) {
    RunOf(cfg, r.steps, r.states)
  }

  ghost function Last(r: Run): State
    requires r.states != []
  {
    r.states[|r.states| - 1]
  }

  /** Nothing is lost, damaged or deleted, and the cluster is as above. */
  ghost predicate Calm(cfg: Config, s: State) {
    && s.meta.nodes == Table(cfg.rf) && s.lost == {} && !s.corrupt
    && forall m :: m in s.sent ==> !m.DeleteChunkMsg?
  }

  /** `r'` goes on from `r`, under the same node table. */
  ghost predicate Extends(cfg: Config, r: Run, r': Run) {
    && r.states != [] && r.steps <= r'.steps && r.states <= r'.states
    && forall j :: |r.states| <= j + 1 && j < |r'.states| ==> r'.states[j].meta.nodes == Table(cfg.rf)
  }

  /** Operation `tid` moved to `op`, and nothing else changed that matters. */
  ghost predicate Moves(cfg: Config, s: State, s': State, tid: nat, op: Op) {
    Calm(cfg, s') && s'.meta == s.meta && s'.ops == s.ops[tid := op] && s.sent <= s'.sent
  }

  lemma Go(cfg: Config, r: Run, step: Step) returns (r': Run)
    requires Good(cfg, r) && r.states != [] && Enabled(cfg, Last(r), step)
    requires Calm(cfg, Last(r)) && Calm(cfg, Next(cfg, Last(r), step))
    ensures Good(cfg, r') && Extends(cfg, r, r')
    ensures r'.steps == r.steps + [step] && r'.states == r.states + [Last(r')]
    ensures Last(r') == Next(cfg, Last(r), step)
  {
    hide Next, Enabled;
    r' := Run(r.steps + [step], r.states + [Next(cfg, Last(r), step)]);
  }

  lemma ExtendsTransitive(cfg: Config, a: Run, b: Run, c: Run)
    requires Extends(cfg, a, b) && Extends(cfg, b, c)
    ensures Extends(cfg, a, c)
  {
    forall j | |a.states| <= j + 1 && j < |c.states|
      ensures c.states[j].meta.nodes == Table(cfg.rf)
    {
      if j + 1 < |b.states| {
        assert c.states[j] == b.states[j];
      }
    }
  }

  // ---- The put: one empty chunk, written to the first `m` nodes ----

  const OID: Bytes := [7]
  const CID: Bytes := [8]
  const NAME: Bytes := [9]

  const SILENT: Choice := Choice(false, [], [], 0, Store.OpenFailed, Store.RemoveFailed, [], [], 0)

  function Told(c: Choice): Choice {
    c.(answered := true)
  }

  function Put0(cfg: Config): PutState
    requires cfg.chunkSize > 0
  {
    PutState(OID, NAME, [], [Planned(OID, CID, 0, 0)], 0, 0, true)
  }

  /** The object's one chunk has the record `rec`. */
  ghost predicate Holding(cfg: Config, s: State, rec: ChunkInfo) {
    && s.meta.objects == map[OID := ObjectInfo(OID, NAME, 0, cfg.rf, [rec])]
    && rec.chunkId == CID && rec.objectId == OID && rec.chunkIndex == 0
  }

  /** The first `m` of `n` writes are acknowledged. */
  function FirstAcks(n: nat, m: nat): (acks: seq<bool>)
    ensures |acks| == n
  {
    seq(n, i => i < m)
  }

  lemma {:induction false} CountEntries(nodes: seq<NodeInfo>, n: nat, m: nat, version: nat)
    requires n <= |nodes|
    ensures |Entries(nodes, FirstAcks(n, m), version)| == if m < n then m else n
  {
    if n > 0 {
      CountEntries(nodes, n - 1, m, version);
      assert FirstAcks(n, m)[..n - 1] == FirstAcks(n - 1, m);
    }
  }

  lemma Created(cfg: Config) returns (r: Run)
    requires ConfigOk(cfg)
    ensures Good(cfg, r) && r.states != [] && Calm(cfg, Last(r))
    ensures Last(r).ops == map[0 := PutSelect(Put0(cfg))]
    ensures Holding(cfg, Last(r), Planned(OID, CID, 0, 0))
  {
    hide Births, Plan;
    var s1 := INIT.(meta := EMPTY.(nodes := Table(cfg.rf)));
    var s2 := SetOp(s1, 0, PutCreate(NAME, []));
    var c := Told(SILENT.(id := OID, uuids := [CID]));
    CreateStep(cfg, s2, c);
    var s3 := Next(cfg, s2, Client(0, c));
    r := Run([ChangeNodes(Table(cfg.rf)), Start(0, PutCreate(NAME, [])), Client(0, c)],
             [INIT, s1, s2, s3]);
    hide Next, Enabled;
    assert r.states[0 + 1] == s1 && Enabled(cfg, INIT, ChangeNodes(Table(cfg.rf))) by { FirstSteps(cfg); }
    FirstSteps(cfg);
  }

  lemma FirstSteps(cfg: Config)
    requires ConfigOk(cfg)
    ensures var s1 := INIT.(meta := EMPTY.(nodes := Table(cfg.rf)));
            && Enabled(cfg, INIT, ChangeNodes(Table(cfg.rf)))
            && Next(cfg, INIT, ChangeNodes(Table(cfg.rf))) == s1
            && Enabled(cfg, s1, Start(0, PutCreate(NAME, [])))
            && Next(cfg, s1, Start(0, PutCreate(NAME, []))) == SetOp(s1, 0, PutCreate(NAME, []))
  {
    hide Table;
  }

  lemma CreateStep(cfg: Config, s: State, c: Choice)
    requires ConfigOk(cfg) && c == Told(SILENT.(id := OID, uuids := [CID]))
    requires s == INIT.(meta := EMPTY.(nodes := Table(cfg.rf)), ops := map[0 := PutCreate(NAME, [])])
    ensures Enabled(cfg, s, Client(0, c))
    ensures var s' := Next(cfg, s, Client(0, c));
            && Calm(cfg, s') && Holding(cfg, s', Planned(OID, CID, 0, 0))
            && s'.ops == map[0 := PutSelect(Put0(cfg))]
  {
    hide Births, Table;
    assert ChunkCount(0, cfg.chunkSize) == 1;
    assert Plan(OID, 0, cfg.chunkSize, [CID]) == [Planned(OID, CID, 0, 0)];
  }

  lemma PutSelects(cfg: Config, s: State)
    requires ConfigOk(cfg) && Calm(cfg, s) && 0 < cfg.rf
    requires 0 in s.ops && s.ops[0] == PutSelect(Put0(cfg))
    ensures var step := Client(0, Told(SILENT.(nodes := Nodes(cfg.rf), order := Ids(cfg.rf))));
            Enabled(cfg, s, step) &&
            Moves(cfg, s, Next(cfg, s, step), 0, PutWrite(Put0(cfg), Nodes(cfg.rf), 0, []))
  {
    hide SelectAnswer, Table, Nodes, Ids, DistinctAddresses;
    AnyStrategySelects(cfg.rf, cfg.strategy);
  }

  /** How a write that reaches the disk in full is answered. */
  function FullWrite(cfg: Config, h: Header, bytes: Bytes, ack: bool): Choice {
    SILENT.(answered := ack, wfate := Store.Published(|Store.Image(cfg.hash, h, bytes, 0)|))
  }

  lemma FullWriteServed(cfg: Config, s: State, address: Bytes, h: Header, bytes: Bytes)
    requires Calm(cfg, s) && Store.Accepts(cfg.hash, h, bytes)
    ensures var (s', ok) := ServeWrite(cfg, s, address, h, bytes, 0, FullWrite(cfg, h, bytes, true).wfate);
            && ok && Calm(cfg, s')
            && s'.meta == s.meta && s'.ops == s.ops && s'.sent == s.sent && s'.hist == s.hist
  {
    hide Store.WriteFiles, Store.Image, Table;
    var s' := ServeWrite(cfg, s, address, h, bytes, 0, FullWrite(cfg, h, bytes, true).wfate).0;
    assert s'.lost == {};
  }

  lemma CalmAfterSend(cfg: Config, s: State, m: Msg)
    requires Calm(cfg, s) && !m.DeleteChunkMsg?
    ensures Calm(cfg, Send(s, m))
  {
    hide Table;
  }

  ghost function PutWriteStep(cfg: Config, ack: bool): Step
    requires cfg.chunkSize > 0
  {
    Client(0, FullWrite(cfg, PutHeader(cfg, Put0(cfg)), PutBytes(Put0(cfg)), ack))
  }

  lemma PutWrites(cfg: Config, s: State, i: nat, replicas: seq<ReplicaInfo>, ack: bool)
    requires ConfigOk(cfg) && Calm(cfg, s) && i < cfg.rf
    requires 0 in s.ops && s.ops[0] == PutWrite(Put0(cfg), Nodes(cfg.rf), i, replicas)
    ensures var step := PutWriteStep(cfg, ack);
            Enabled(cfg, s, step) &&
            Moves(cfg, s, Next(cfg, s, step), 0,
                  PutWrite(Put0(cfg), Nodes(cfg.rf), i + 1,
                           if ack then AddReplica(replicas, Node(i), 1) else replicas))
  {
    hide ServeWrite, Store.Image, Table, AddReplica, Calm;
    var h, bytes := PutHeader(cfg, Put0(cfg)), PutBytes(Put0(cfg));
    var m := WriteMsg(Node(i).address, h, bytes);
    CalmAfterSend(cfg, s, m);
    FullWriteServed(cfg, Send(s, m), Node(i).address, h, bytes);
    CalmOps(cfg, Next(cfg, s, PutWriteStep(cfg, ack)), Send(s, m));
    CalmOps(cfg, Next(cfg, s, PutWriteStep(cfg, ack)),
            ServeWrite(cfg, Send(s, m), Node(i).address, h, bytes, 0, FullWrite(cfg, h, bytes, true).wfate).0);
  }

  /** Moving an operation does not disturb the calm. */
  lemma CalmOps(cfg: Config, s': State, s: State)
    ensures (Calm(cfg, s) && s'.meta.nodes == s.meta.nodes && s'.lost == s.lost &&
             s'.corrupt == s.corrupt && s'.sent == s.sent) ==> Calm(cfg, s')
  {
    hide Table;
  }

  /** All the put's writes, the first `m` of them acknowledged. */
  lemma {:induction false} PutWriteLoop(cfg: Config, r: Run, i: nat, m: nat) returns (r': Run)
    requires ConfigOk(cfg) && Good(cfg, r) && r.states != [] && Calm(cfg, Last(r)) && i <= cfg.rf
    requires 0 in Last(r).ops
    requires Last(r).ops[0] == PutWrite(Put0(cfg), Nodes(cfg.rf), i,
                                        Entries(Nodes(cfg.rf), FirstAcks(i, m), 1))
    ensures Good(cfg, r') && Extends(cfg, r, r') && r'.states != []
    ensures Moves(cfg, Last(r), Last(r'), 0,
                  PutWrite(Put0(cfg), Nodes(cfg.rf), cfg.rf,
                           Entries(Nodes(cfg.rf), FirstAcks(cfg.rf, m), 1)))
    decreases cfg.rf - i
  {
    hide Next, Enabled, Good, Calm, Entries, PutWriteStep, Table;
    if i == cfg.rf {
      r' := r;
      CalmTable(cfg, Last(r));
    } else {
      var acks := FirstAcks(i, m);
      PutWrites(cfg, Last(r), i, Entries(Nodes(cfg.rf), acks, 1), i < m);
      EntriesStep(Nodes(cfg.rf), acks, i < m, 1);
      assert acks + [i < m] == FirstAcks(i + 1, m);
      var r1 := Go(cfg, r, PutWriteStep(cfg, i < m));
      r' := PutWriteLoop(cfg, r1, i + 1, m);
      ExtendsTransitive(cfg, r, r1, r');
    }
  }

  lemma CalmTable(cfg: Config, s: State)
    requires Calm(cfg, s)
    ensures s.meta.nodes == Table(cfg.rf)
  {
  }

  lemma PutReachesQuorum(cfg: Config, s: State, replicas: seq<ReplicaInfo>)
    requires ConfigOk(cfg) && Calm(cfg, s) && |replicas| >= Required(cfg.rf, cfg.policy)
    requires 0 in s.ops && s.ops[0] == PutWrite(Put0(cfg), Nodes(cfg.rf), cfg.rf, replicas)
    ensures Enabled(cfg, s, Client(0, SILENT)) &&
            Moves(cfg, s, Next(cfg, s, Client(0, SILENT)), 0, PutPublish(Put0(cfg), replicas))
  {
    hide Table, Nodes, Required;
  }

  lemma PutPublishes(cfg: Config, s: State, replicas: seq<ReplicaInfo>)
    requires ConfigOk(cfg) && Calm(cfg, s) && Holding(cfg, s, Planned(OID, CID, 0, 0))
    requires 0 in s.ops && s.ops[0] == PutPublish(Put0(cfg), replicas)
    ensures Enabled(cfg, s, Client(0, Told(SILENT)))
    ensures var (s', rec) := (Next(cfg, s, Client(0, Told(SILENT))), PutChunk(cfg, Put0(cfg), replicas));
            && Calm(cfg, s') && Holding(cfg, s', rec) && UpdateMsg(OID, rec) in s'.sent
            && s'.ops == s.ops[0 := PutSelect(PutNext(Put0(cfg), true))]
  {
    hide Table, Calm;
    var rec := PutChunk(cfg, Put0(cfg), replicas);
    CalmAfterSend(cfg, s, UpdateMsg(OID, rec));
    UpdateHolds(cfg, Send(s, UpdateMsg(OID, rec)), Planned(OID, CID, 0, 0), rec);
    CalmOps(cfg, Next(cfg, s, Client(0, Told(SILENT))), Send(s, UpdateMsg(OID, rec)));
  }

  /** An update replaces the one record there is. */
  lemma UpdateHolds(cfg: Config, s: State, rec: ChunkInfo, rec': ChunkInfo)
    requires Holding(cfg, s, rec)
    requires rec'.chunkId == CID && rec'.objectId == OID && rec'.chunkIndex == 0
    ensures var (s', ok) := ServeUpdate(s, OID, rec');
            && ok && Holding(cfg, s', rec')
            && s' == s.(meta := s'.meta) && s'.meta.nodes == s.meta.nodes
    ensures Acknowledged(s, rec') && s.meta.objects[OID].chunks == [rec]
  {
    assert HasChunk([rec], CID) by { assert [rec][0].chunkId == CID; }
    assert ReplaceChunk([rec], rec') == [rec'];
    var s' := ServeUpdate(s, OID, rec').0;
    assert s'.meta.objects == map[OID := ObjectInfo(OID, NAME, 0, cfg.rf, [rec'])];
  }

  /** The whole put: the record ends up with the first `m` nodes. */
  lemma PutDoneRun(cfg: Config, m: nat) returns (r: Run, rec: ChunkInfo)
    requires ConfigOk(cfg) && Required(cfg.rf, cfg.policy) <= m <= cfg.rf && 0 < cfg.rf
    ensures Good(cfg, r) && r.states != [] && Calm(cfg, Last(r)) && Holding(cfg, Last(r), rec)
    ensures Last(r).ops.Keys == {0} && UpdateMsg(OID, rec) in Last(r).sent
    ensures rec.replicas == Entries(Nodes(cfg.rf), FirstAcks(cfg.rf, m), 1)
  {
    hide Next, Enabled, Good, Calm, Entries, Table, FirstAcks, Extends;
    var r2 := PutWrittenRun(cfg, m);
    var replicas := Entries(Nodes(cfg.rf), FirstAcks(cfg.rf, m), 1);
    CountEntries(Nodes(cfg.rf), cfg.rf, m, 1);
    PutReachesQuorum(cfg, Last(r2), replicas);
    var r3 := Go(cfg, r2, Client(0, SILENT));
    PutPublishes(cfg, Last(r3), replicas);
    r := Go(cfg, r3, Client(0, Told(SILENT)));
    rec := PutChunk(cfg, Put0(cfg), replicas);
    assert Last(r).ops.Keys == {0};
  }

  lemma PutWrittenRun(cfg: Config, m: nat) returns (r: Run)
    requires ConfigOk(cfg) && m <= cfg.rf && 0 < cfg.rf
    ensures Good(cfg, r) && r.states != [] && Calm(cfg, Last(r))
    ensures Holding(cfg, Last(r), Planned(OID, CID, 0, 0))
    ensures Last(r).ops == map[0 := PutWrite(Put0(cfg), Nodes(cfg.rf), cfg.rf,
                                            Entries(Nodes(cfg.rf), FirstAcks(cfg.rf, m), 1))]
  {
    hide Next, Enabled, Good, Calm, Entries, Table, FirstAcks, Extends;
    var r0 := Created(cfg);
    PutSelects(cfg, Last(r0));
    var r1 := Go(cfg, r0, Client(0, Told(SILENT.(nodes := Nodes(cfg.rf), order := Ids(cfg.rf)))));
    EmptyEntries(cfg, m);
    r := PutWriteLoop(cfg, r1, 0, m);
  }

  lemma EmptyEntries(cfg: Config, m: nat)
    ensures Entries(Nodes(cfg.rf), FirstAcks(0, m), 1) == []
  {
  }

  // ---- A repair that acknowledges the first `m` nodes ----

  const LOCAL: NodeInfo := NodeInfo([1], [1], true, 0)

  function Todo(rec: ChunkInfo): RepairState {
    RepairState([rec], [], LOCAL)
  }

  function ScanStep(tid: nat): Step {
    Client(tid, Told(SILENT.(order := [OID])))
  }

  lemma RepairScans(cfg: Config, s: State, tid: nat, rec: ChunkInfo)
    requires ConfigOk(cfg) && Calm(cfg, s) && Holding(cfg, s, rec) && tid in s.ops
    requires Live(Table(cfg.rf), rec.replicas) < cfg.rf
    requires s.ops[tid] == RepairScan(RepairState([], [], LOCAL))
    ensures Enabled(cfg, s, ScanStep(tid))
    ensures Moves(cfg, s, Next(cfg, s, ScanStep(tid)), tid, RepairFetch(Todo(rec), 0))
  {
    hide Table, Live;
    assert s.meta.objects.Keys == {OID};
    assert UnderIn(s.meta.nodes, [rec], cfg.rf) == [rec] by { assert [rec][..0] == []; }
    assert UnderAll(s.meta, [OID], cfg.rf) == [rec] by { assert [OID][..0] == []; }
  }

  lemma RepairStarts(cfg: Config, s: State, tid: nat)
    requires ConfigOk(cfg) && Calm(cfg, s) && tid !in s.ops
    ensures var (step, op) := (Start(tid, RepairScan(RepairState([], [], LOCAL))),
                               RepairScan(RepairState([], [], LOCAL)));
            Enabled(cfg, s, step) && Moves(cfg, s, Next(cfg, s, step), tid, op)
  {
    hide Table;
  }

  lemma ScanRun(cfg: Config, r: Run, tid: nat, rec: ChunkInfo) returns (r': Run, scan: nat)
    requires ConfigOk(cfg) && Good(cfg, r) && r.states != [] && Calm(cfg, Last(r))
    requires Holding(cfg, Last(r), rec) && Live(Table(cfg.rf), rec.replicas) < cfg.rf
    requires tid !in Last(r).ops
    ensures Good(cfg, r') && Extends(cfg, r, r') && r'.states != []
    ensures Moves(cfg, Last(r), Last(r'), tid, RepairFetch(Todo(rec), 0))
    ensures |r'.states| == |r'.steps| + 1
    ensures |r.states| <= scan < |r'.steps| && ScannedAt(r'.steps, r'.states, scan, tid)
  {
    hide Next, Enabled, Good, Calm, Table, Live;
    RepairStarts(cfg, Last(r), tid);
    var r1 := Go(cfg, r, Start(tid, RepairScan(RepairState([], [], LOCAL))));
    RepairScans(cfg, Last(r1), tid, rec);
    r' := Go(cfg, r1, ScanStep(tid));
    ExtendsTransitive(cfg, r, r1, r');
    scan := |r1.steps|;
    GoodLength(cfg, r);
    GoodLength(cfg, r1);
    assert r'.states[scan] == Last(r1);
  }

  lemma GoodLength(cfg: Config, r: Run)
    requires Good(cfg, r)
    ensures |r.states| == |r.steps| + 1
  {
  }

  /** The first replica of a published record can be read, as nothing was lost. */
  lemma FirstReplicaReads(cfg: Config, r: Run, rec: ChunkInfo)
    requires Good(cfg, r) && r.states != [] && Calm(cfg, Last(r))
    requires UpdateMsg(OID, rec) in Last(r).sent && rec.replicas != []
    ensures Store.Read(cfg.hash, Disk(Last(r), rec.replicas[0].address), rec.chunkId).Some?
  {
    hide Next, Enabled, Store.Read, Table, ChunkOk;
    UpdatesCarryQuorums(cfg, r.steps, r.states, |r.states| - 1, OID, rec);
    assert Held(cfg, Last(r), rec.replicas[0].address, rec.chunkId);
    assert DeleteChunkMsg(rec.replicas[0].address, rec.chunkId) !in Last(r).sent;
  }

  lemma FirstEntry(nodes: seq<NodeInfo>, acks: seq<bool>, version: nat)
    requires |acks| <= |nodes| && forall i :: 0 <= i < |nodes| ==> nodes[i].id != []
    ensures var replicas := Entries(nodes, acks, version);
            replicas != [] ==> replicas[0].nodeId != []
  {
    EntriesMade(nodes, acks, version);
    var replicas := Entries(nodes, acks, version);
    if replicas != [] {
      assert replicas[0] in replicas;
    }
  }

  lemma RepairFetches(cfg: Config, s: State, tid: nat, rec: ChunkInfo)
    requires ConfigOk(cfg) && Calm(cfg, s) && tid in s.ops && s.ops[tid] == RepairFetch(Todo(rec), 0)
    requires rec.replicas != [] && rec.replicas[0].nodeId != []
    requires Store.Read(cfg.hash, Disk(s, rec.replicas[0].address), rec.chunkId).Some?
    ensures Enabled(cfg, s, Client(tid, Told(SILENT)))
    ensures var read := Store.Read(cfg.hash, Disk(s, rec.replicas[0].address), rec.chunkId);
            Moves(cfg, s, Next(cfg, s, Client(tid, Told(SILENT))), tid,
                  RepairSelect(Todo(rec), read.value.1))
  {
    hide Table, Store.Read;
  }

  lemma RepairSelects(cfg: Config, s: State, tid: nat, rec: ChunkInfo, bytes: Bytes)
    requires ConfigOk(cfg) && Calm(cfg, s) && 0 < cfg.rf
    requires tid in s.ops && s.ops[tid] == RepairSelect(Todo(rec), bytes)
    ensures var step := Client(tid, Told(SILENT.(nodes := Nodes(cfg.rf), order := Ids(cfg.rf))));
            Enabled(cfg, s, step) &&
            Moves(cfg, s, Next(cfg, s, step), tid,
                  RepairWrite(Todo(rec), bytes, Nodes(cfg.rf), 0, []))
  {
    hide SelectAnswer, Table, Ids, DistinctAddresses;
    AnyStrategySelects(cfg.rf, LeastUsed);
  }

  ghost function RepairWriteStep(cfg: Config, tid: nat, rec: ChunkInfo, bytes: Bytes, ack: bool): Step {
    Client(tid, FullWrite(cfg, RepairHeader(cfg, rec, bytes, 0), bytes, ack))
  }

  lemma RepairWrites(cfg: Config, s: State, tid: nat, rec: ChunkInfo, bytes: Bytes, i: nat,
                     replicas: seq<ReplicaInfo>, ack: bool)
    requires ConfigOk(cfg) && Calm(cfg, s) && i < cfg.rf && tid in s.ops
    requires s.ops[tid] == RepairWrite(Todo(rec), bytes, Nodes(cfg.rf), i, replicas)
    ensures var step := RepairWriteStep(cfg, tid, rec, bytes, ack);
            Enabled(cfg, s, step) &&
            Moves(cfg, s, Next(cfg, s, step), tid,
                  RepairWrite(Todo(rec), bytes, Nodes(cfg.rf), i + 1,
                              if ack then AddReplica(replicas, Node(i), rec.version) else replicas))
  {
    hide ServeWrite, Store.Image, Table, AddReplica, Calm;
    var h := RepairHeader(cfg, rec, bytes, 0);
    var m := WriteMsg(Node(i).address, h, bytes);
    assert Node(i).id[0] == 0 && LOCAL.id[0] == 1;
    CalmAfterSend(cfg, s, m);
    FullWriteServed(cfg, Send(s, m), Node(i).address, h, bytes);
    CalmOps(cfg, Next(cfg, s, RepairWriteStep(cfg, tid, rec, bytes, ack)), Send(s, m));
    CalmOps(cfg, Next(cfg, s, RepairWriteStep(cfg, tid, rec, bytes, ack)),
            ServeWrite(cfg, Send(s, m), Node(i).address, h, bytes, 0,
                       FullWrite(cfg, h, bytes, true).wfate).0);
  }

  /** Throughout `r'`, from the end of `r` on, the operation is writing. */
  ghost predicate Writing(r: Run, r': Run, tid: nat) {
    r.states != [] &&
    forall j :: |r.states| <= j + 1 && j < |r'.states| ==>
      tid in r'.states[j].ops && r'.states[j].ops[tid].RepairWrite?
  }

  lemma WritingTransitive(cfg: Config, a: Run, b: Run, c: Run, tid: nat)
    requires Extends(cfg, b, c) && Writing(a, b, tid) && Writing(b, c, tid)
    ensures Writing(a, c, tid)
  {
    hide Table;
    forall j | |a.states| <= j + 1 && j < |c.states|
      ensures tid in c.states[j].ops && c.states[j].ops[tid].RepairWrite?
    {
      if j + 1 < |b.states| {
        assert c.states[j] == b.states[j];
      }
    }
  }

  lemma {:induction false} RepairWriteLoop(cfg: Config, r: Run, tid: nat, rec: ChunkInfo,
                                           bytes: Bytes, i: nat, m: nat)
    returns (r': Run)
    requires ConfigOk(cfg) && Good(cfg, r) && r.states != [] && Calm(cfg, Last(r)) && i <= cfg.rf
    requires tid in Last(r).ops
    requires Last(r).ops[tid] == RepairWrite(Todo(rec), bytes, Nodes(cfg.rf), i,
                                             Entries(Nodes(cfg.rf), FirstAcks(i, m), rec.version))
    ensures Good(cfg, r') && Extends(cfg, r, r') && Writing(r, r', tid) && r'.states != []
    ensures Moves(cfg, Last(r), Last(r'), tid,
                  RepairWrite(Todo(rec), bytes, Nodes(cfg.rf), cfg.rf,
                              Entries(Nodes(cfg.rf), FirstAcks(cfg.rf, m), rec.version)))
    decreases cfg.rf - i
  {
    hide Next, Enabled, Good, Calm, Entries, RepairWriteStep, Table;
    if i == cfg.rf {
      r' := r;
      CalmTable(cfg, Last(r));
    } else {
      var acks := FirstAcks(i, m);
      RepairWrites(cfg, Last(r), tid, rec, bytes, i, Entries(Nodes(cfg.rf), acks, rec.version), i < m);
      EntriesStep(Nodes(cfg.rf), acks, i < m, rec.version);
      assert acks + [i < m] == FirstAcks(i + 1, m);
      var r1 := Go(cfg, r, RepairWriteStep(cfg, tid, rec, bytes, i < m));
      r' := RepairWriteLoop(cfg, r1, tid, rec, bytes, i + 1, m);
      ExtendsTransitive(cfg, r, r1, r');
      assert Writing(r, r1, tid);
      WritingTransitive(cfg, r, r1, r', tid);
    }
  }

  lemma RepairReachesQuorum(cfg: Config, s: State, tid: nat, rec: ChunkInfo, bytes: Bytes,
                            replicas: seq<ReplicaInfo>)
    requires ConfigOk(cfg) && Calm(cfg, s) && |replicas| >= Required(cfg.rf, cfg.policy)
    requires tid in s.ops
    requires s.ops[tid] == RepairWrite(Todo(rec), bytes, Nodes(cfg.rf), cfg.rf, replicas)
    ensures Enabled(cfg, s, Client(tid, SILENT))
    ensures Moves(cfg, s, Next(cfg, s, Client(tid, SILENT)), tid,
                  RepairPublish(Todo(rec), bytes, replicas))
  {
    hide Table, Required;
  }

  lemma RepairUpdates(cfg: Config, s: State, tid: nat, cur: ChunkInfo, rec: ChunkInfo, bytes: Bytes,
                      replicas: seq<ReplicaInfo>)
    requires ConfigOk(cfg) && Calm(cfg, s) && Holding(cfg, s, cur) && tid in s.ops
    requires rec.chunkId == CID && rec.objectId == OID && rec.chunkIndex == 0
    requires s.ops[tid] == RepairPublish(Todo(rec), bytes, replicas)
    ensures Enabled(cfg, s, Client(tid, Told(SILENT)))
    ensures var (s', rec') := (Next(cfg, s, Client(tid, Told(SILENT))), RepairChunk(rec, replicas));
            && Calm(cfg, s') && Holding(cfg, s', rec') && s.sent <= s'.sent
            && UpdateMsg(OID, rec') in s'.sent && s'.ops == s.ops[tid := NextTodo(Todo(rec))]
    ensures Acknowledged(s, RepairChunk(rec, replicas)) && s.meta.objects[OID].chunks == [cur]
  {
    hide Table, Calm;
    var rec' := RepairChunk(rec, replicas);
    CalmAfterSend(cfg, s, UpdateMsg(OID, rec'));
    UpdateHolds(cfg, Send(s, UpdateMsg(OID, rec')), cur, rec');
    CalmOps(cfg, Next(cfg, s, Client(tid, Told(SILENT))), Send(s, UpdateMsg(OID, rec')));
  }

  lemma FetchRun(cfg: Config, r: Run, tid: nat, rec: ChunkInfo) returns (r': Run, bytes: Bytes)
    requires ConfigOk(cfg) && Good(cfg, r) && r.states != [] && Calm(cfg, Last(r))
    requires tid in Last(r).ops && Last(r).ops[tid] == RepairFetch(Todo(rec), 0)
    requires rec.chunkId == CID && UpdateMsg(OID, rec) in Last(r).sent
    requires rec.replicas != [] && rec.replicas[0].nodeId != []
    ensures Good(cfg, r') && Extends(cfg, r, r') && r'.states == r.states + [Last(r')]
    ensures Moves(cfg, Last(r), Last(r'), tid, RepairSelect(Todo(rec), bytes))
  {
    hide Next, Enabled, Good, Calm, Table, Store.Read, Extends;
    FirstReplicaReads(cfg, r, rec);
    RepairFetches(cfg, Last(r), tid, rec);
    r' := Go(cfg, r, Client(tid, Told(SILENT)));
    bytes := Last(r').ops[tid].bytes;
  }

  /** Selection, writes and quorum. */
  lemma WriteRun(cfg: Config, r: Run, tid: nat, rec: ChunkInfo, bytes: Bytes, m: nat)
    returns (r2: Run, r3: Run, r4: Run)
    requires ConfigOk(cfg) && 0 < cfg.rf && Required(cfg.rf, cfg.policy) <= m <= cfg.rf
    requires Good(cfg, r) && r.states != [] && Calm(cfg, Last(r))
    requires tid in Last(r).ops && Last(r).ops[tid] == RepairSelect(Todo(rec), bytes)
    ensures Good(cfg, r2) && Good(cfg, r4) && Extends(cfg, r, r4) && r4.states != []
    ensures |r2.steps| == |r.steps| + 1 && r2.steps[..|r.steps|] == r.steps && r.states <= r2.states
    ensures var step := r2.steps[|r.steps|]; step.Client? && step.tid == tid && step.c.answered
    ensures Extends(cfg, r2, r3) && Writing(r2, r3, tid)
    ensures r4.states == r3.states + [Last(r4)] && r3.steps <= r4.steps
    ensures Moves(cfg, Last(r), Last(r4), tid,
                  RepairPublish(Todo(rec), bytes,
                                Entries(Nodes(cfg.rf), FirstAcks(cfg.rf, m), rec.version)))
  {
    hide Next, Enabled, Good, Calm, Entries, Table, FirstAcks, Required, Extends, Writing;
    RepairSelects(cfg, Last(r), tid, rec, bytes);
    r2 := Go(cfg, r, Client(tid, Told(SILENT.(nodes := Nodes(cfg.rf), order := Ids(cfg.rf)))));
    NoEntries(cfg, m, rec.version);
    r3 := RepairWriteLoop(cfg, r2, tid, rec, bytes, 0, m);
    CountEntries(Nodes(cfg.rf), cfg.rf, m, rec.version);
    RepairReachesQuorum(cfg, Last(r3), tid, rec, bytes,
                        Entries(Nodes(cfg.rf), FirstAcks(cfg.rf, m), rec.version));
    r4 := Go(cfg, r3, Client(tid, SILENT));
    ExtendsTransitive(cfg, r, r2, r3);
    ExtendsTransitive(cfg, r, r3, r4);
  }

  /** A repair of `rec`, from the end of its scan to its served update, in a state where the table
      holds `cur`. */
  lemma RepairRun(cfg: Config, r: Run, tid: nat, cur: ChunkInfo, rec: ChunkInfo, m: nat)
    returns (r': Run, sel: nat, n: nat)
    requires ConfigOk(cfg) && 0 < cfg.rf && Required(cfg.rf, cfg.policy) <= m <= cfg.rf
    requires Good(cfg, r) && r.states != [] && Calm(cfg, Last(r)) && Holding(cfg, Last(r), cur)
    requires tid in Last(r).ops && Last(r).ops[tid] == RepairFetch(Todo(rec), 0)
    requires rec.chunkId == CID && rec.objectId == OID && rec.chunkIndex == 0
    requires UpdateMsg(OID, rec) in Last(r).sent
    requires rec.replicas != [] && rec.replicas[0].nodeId != []
    ensures Good(cfg, r') && Extends(cfg, r, r') && r'.states != [] && Calm(cfg, Last(r'))
    ensures RepairOf(cfg, r'.steps, r'.states, sel, n, tid)
    ensures |r.states| <= sel < n && n + 2 == |r'.states|
    ensures var rec' := RepairChunk(rec, Entries(Nodes(cfg.rf), FirstAcks(cfg.rf, m), rec.version));
            && Published(r'.states[n], tid) == rec' && Acknowledged(r'.states[n], rec')
            && r'.states[n].meta == Last(r).meta && r'.states[n].ops[tid].repair == Todo(rec)
            && Holding(cfg, Last(r'), rec')
    ensures Last(r).sent <= Last(r').sent
    ensures Last(r').ops == Last(r).ops[tid := NextTodo(Todo(rec))]
  {
    hide Next, Enabled, Good, Calm, Entries, Table, FirstAcks, Acknowledged, Required, Extends, Writing,
         RunOf;
    var r1, bytes := FetchRun(cfg, r, tid, rec);
    var r2, r3, r4 := WriteRun(cfg, r1, tid, rec, bytes, m);
    RepairUpdates(cfg, Last(r4), tid, cur, rec, bytes,
                  Entries(Nodes(cfg.rf), FirstAcks(cfg.rf, m), rec.version));
    r' := Go(cfg, r4, Client(tid, Told(SILENT)));
    ExtendsTransitive(cfg, r, r1, r4);
    ExtendsTransitive(cfg, r, r4, r');
    sel, n := |r1.steps|, |r4.steps|;
    IsRepairOf(cfg, r1, r2, r3, r4, r', tid);
  }

  lemma NoEntries(cfg: Config, m: nat, version: nat)
    ensures Entries(Nodes(cfg.rf), FirstAcks(0, m), version) == []
  {
  }

  /** The pieces of a repair, put together. */
  lemma IsRepairOf(cfg: Config, r1: Run, r2: Run, r3: Run, r4: Run, r5: Run, tid: nat)
    requires Good(cfg, r1) && Good(cfg, r2) && Good(cfg, r4) && Good(cfg, r5)
    requires r1.states != [] && tid in Last(r1).ops && Last(r1).ops[tid].RepairSelect?
    requires |r2.steps| == |r1.steps| + 1 && r2.steps[..|r1.steps|] == r1.steps && r1.states <= r2.states
    requires r2.steps[|r1.steps|].Client? && r2.steps[|r1.steps|].tid == tid &&
             r2.steps[|r1.steps|].c.answered
    requires Extends(cfg, r2, r3) && Writing(r2, r3, tid)
    requires r4.states == r3.states + [Last(r4)] && r3.steps <= r4.steps
    requires tid in Last(r4).ops && Last(r4).ops[tid].RepairPublish? &&
             Last(r4).ops[tid].repair.todo != []
    requires r5.states == r4.states + [Last(r5)] && r4.steps <= r5.steps
    requires |r5.steps| == |r4.steps| + 1
    requires r5.steps[|r4.steps|].Client? && r5.steps[|r4.steps|].tid == tid &&
             r5.steps[|r4.steps|].c.answered
    ensures RepairOf(cfg, r5.steps, r5.states, |r1.steps|, |r4.steps|, tid)
    ensures |r1.states| == |r1.steps| + 1 && r5.states[|r4.steps|] == Last(r4)
    ensures |r4.steps| + 2 == |r5.states|
  {
    hide Next, Enabled, Table;
    var sel, n := |r1.steps|, |r4.steps|;
    assert r5.states[sel] == r1.states[sel] && r5.steps[sel] == r2.steps[sel];
    assert r5.states[n] == Last(r4);
    forall j | sel < j <= n
      ensures tid in r5.states[j].ops &&
              (r5.states[j].ops[tid].RepairWrite? || r5.states[j].ops[tid].RepairPublish?)
    {
      if j < n {
        assert r5.states[j] == r3.states[j];
      }
    }
  }

  // ---- Exactly when the number of live replicas can go down ----

  lemma LiveEntries(cfg: Config, m: nat, version: nat)
    requires m <= cfg.rf
    ensures Live(Table(cfg.rf), Entries(Nodes(cfg.rf), FirstAcks(cfg.rf, m), version)) == m
  {
    hide Table, Live, Selectable, Entries, FirstAcks;
    NodesSelectable(cfg.rf, LeastUsed);
    SelectedAreLive(Table(cfg.rf), LeastUsed, cfg.rf, Nodes(cfg.rf), FirstAcks(cfg.rf, m), version);
    CountEntries(Nodes(cfg.rf), cfg.rf, m, version);
  }

  lemma FlagsFixedIn(cfg: Config, r: Run, r': Run, from: nat, to: nat)
    requires Extends(cfg, r, r') && |r.states| <= from + 1 && from <= to < |r'.states|
    ensures FlagsFixed(r'.states, from, to)
  {
  }

  /** A repair alone: the put reached all nodes but one, the repair only a bare majority. */
  lemma LoneRepairLowers(cfg: Config) returns (r: Run, scan: nat, sel: nat, n: nat)
    requires ConfigOk(cfg) && cfg.policy.Majority? && cfg.rf > 4
    ensures RepairOf(cfg, r.steps, r.states, sel, n, 1) && scan < sel
    ensures ScannedAt(r.steps, r.states, scan, 1) && FlagsFixed(r.states, scan, n)
    ensures RecordUnchanged(r.states[n], 1) && !NotLowered(r.states[n], Published(r.states[n], 1))
  {
    hide Good, Calm, Entries, Table, FirstAcks, Live, RepairOf, FlagsFixed, ScannedAt, Acknowledged,
         Extends;
    var m := cfg.rf / 2 + 1;
    var r0, rec := PutDoneRun(cfg, cfg.rf - 1);
    PutRecord(cfg, rec, cfg.rf - 1, 1);
    var r1, at := ScanRun(cfg, r0, 1, rec);
    scan := at;
    var r2, s2, n2 := RepairRun(cfg, r1, 1, rec, rec, m);
    r, sel, n := r2, s2, n2;
    LiveEntries(cfg, m, rec.version);
    ExtendsTransitive(cfg, r0, r1, r);
    ScanKept(cfg, r1, r, scan, 1);
    FlagsFixedIn(cfg, r0, r, scan, n);
    CalmAt(cfg, r1, r, n);
    RepairBounds(cfg, r.steps, r.states, sel, n, 1);
  }

  /** What the record of a put to `m` nodes looks like to a repair. */
  lemma PutRecord(cfg: Config, rec: ChunkInfo, m: nat, version: nat)
    requires 0 < m <= cfg.rf && rec.replicas == Entries(Nodes(cfg.rf), FirstAcks(cfg.rf, m), version)
    ensures Live(Table(cfg.rf), rec.replicas) == m
    ensures rec.replicas != [] && rec.replicas[0].nodeId != []
  {
    hide Table, Live, Entries, FirstAcks;
    LiveEntries(cfg, m, version);
    CountEntries(Nodes(cfg.rf), cfg.rf, m, version);
    FirstEntry(Nodes(cfg.rf), FirstAcks(cfg.rf, m), version);
  }

  lemma ScanKept(cfg: Config, r: Run, r': Run, scan: nat, tid: nat)
    requires Extends(cfg, r, r') && ScannedAt(r.steps, r.states, scan, tid)
    ensures ScannedAt(r'.steps, r'.states, scan, tid)
  {
  }

  lemma CalmAt(cfg: Config, r: Run, r': Run, n: nat)
    requires Extends(cfg, r, r') && |r.states| <= n + 1 && n < |r'.states|
    ensures r'.states[n].meta.nodes == Table(cfg.rf)
  {
  }

  /** Two repairs of one scanned chunk: the first reaches all nodes, the second all but one, and
      its update comes last. */
  lemma SecondRepairLowers(cfg: Config) returns (r: Run, sel: nat, n: nat)
    requires ConfigOk(cfg) && cfg.policy.Majority? && cfg.rf > 2
    ensures RepairOf(cfg, r.steps, r.states, sel, n, 2) && FlagsFixed(r.states, sel, n)
    ensures !NotLowered(r.states[n], Published(r.states[n], 2))
  {
    hide Good, Calm, Entries, Table, FirstAcks, Live, RepairOf, FlagsFixed, ScannedAt, Acknowledged,
         Extends;
    var r0, rec := PutDoneRun(cfg, cfg.rf - 1);
    PutRecord(cfg, rec, cfg.rf - 1, 1);
    var r1, _ := ScanRun(cfg, r0, 1, rec);
    var r2, _ := ScanRun(cfg, r1, 2, rec);
    var r3, _, _ := RepairRun(cfg, r2, 1, rec, rec, cfg.rf);
    var cur := RepairChunk(rec, Entries(Nodes(cfg.rf), FirstAcks(cfg.rf, cfg.rf), rec.version));
    var r4, s4, n4 := RepairRun(cfg, r3, 2, cur, rec, cfg.rf - 1);
    r, sel, n := r4, s4, n4;
    LiveEntries(cfg, cfg.rf, rec.version);
    LiveEntries(cfg, cfg.rf - 1, rec.version);
    FlagsFixedIn(cfg, r3, r, sel, n);
    CalmAt(cfg, r3, r, n);
    RepairBounds(cfg, r.steps, r.states, sel, n, 2);
  }

  /** In every run with the flags fixed since the selection, no repair lowers the live count of
      the record it replaces. */
  ghost predicate NeverLowers(cfg: Config) {
    forall steps, states, sel, n, tid :: RepairOf(cfg, steps, states, sel, n, tid) ==>
      (FlagsFixed(states, sel, n) ==> NotLowered(states[n], Published(states[n], tid)))
  }

  /** The same, only for repairs that publish over the record they scanned, with the flags fixed
      since the scan. */
  ghost predicate NeverLowersUndisturbed(cfg: Config) {
    forall steps, states, scan: nat, sel, n, tid ::
      RepairOf(cfg, steps, states, sel, n, tid) && ScannedAt(steps, states, scan, tid) ==>
        (scan < sel && FlagsFixed(states, scan, n) && RecordUnchanged(states[n], tid) ==>
           NotLowered(states[n], Published(states[n], tid)))
  }

  /** With repairs free to overlap: if and only if every selected node must acknowledge. */
  lemma RepairNeverLowersIff(cfg: Config)
    requires ConfigOk(cfg)
    ensures NeverLowers(cfg) <==> cfg.policy.All? || cfg.rf <= 2
  {
    hide RunOf, FlagsFixed, NotLowered, Published;
    if cfg.policy.All? || cfg.rf <= 2 {
      forall steps, states, sel, n, tid |
        RepairOf(cfg, steps, states, sel, n, tid) && FlagsFixed(states, sel, n)
        ensures NotLowered(states[n], Published(states[n], tid))
      {
        FullQuorumNeverLowers(cfg, steps, states, sel, n, tid);
      }
    } else {
      var r, sel, n := SecondRepairLowers(cfg);
      RepairBounds(cfg, r.steps, r.states, sel, n, 2);
    }
  }

  /** For a repair that nothing disturbs: if and only if all must acknowledge or the replication
      factor is at most 4. */
  lemma UndisturbedNeverLowersIff(cfg: Config)
    requires ConfigOk(cfg)
    ensures NeverLowersUndisturbed(cfg) <==> cfg.policy.All? || cfg.rf <= 4
  {
    hide RunOf, FlagsFixed, NotLowered, Published, ScannedAt, RecordUnchanged;
    if cfg.policy.All? || cfg.rf <= 4 {
      forall steps, states, scan: nat, sel, n, tid |
        RepairOf(cfg, steps, states, sel, n, tid) && ScannedAt(steps, states, scan, tid) &&
        scan < sel && FlagsFixed(states, scan, n) && RecordUnchanged(states[n], tid)
        ensures NotLowered(states[n], Published(states[n], tid))
      {
        UndisturbedNeverLowers(cfg, steps, states, scan, sel, n, tid);
      }
    } else {
      var r, scan, sel, n := LoneRepairLowers(cfg);
      RepairBounds(cfg, r.steps, r.states, sel, n, 1);
    }
  }
}
