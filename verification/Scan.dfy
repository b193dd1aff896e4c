/** The under-replication scan (src/metadata/metadata_store.cpp, get_under_replicated_chunks). */
module Scan {
  import opened Bytes
  import opened Types
  import opened MetadataStore

  predicate IsLive(nodes: map<Bytes, NodeInfo>, r: ReplicaInfo) {
    r.nodeId in nodes && nodes[r.nodeId].online
  }

  /** Replica entries whose node is registered and online. */
  function Live(nodes: map<Bytes, NodeInfo>, replicas: seq<ReplicaInfo>): (n: nat)
    ensures n <= |replicas|
  {
    if replicas == [] then 0
    else Live(nodes, replicas[..|replicas| - 1]) +
         if IsLive(nodes, replicas[|replicas| - 1]) then 1 else 0
  }

  lemma {:induction false} LiveAll(nodes: map<Bytes, NodeInfo>, replicas: seq<ReplicaInfo>)
    requires forall r :: r in replicas ==> IsLive(nodes, r)
    ensures Live(nodes, replicas) == |replicas|
  {
    if replicas != [] {
      LiveAll(nodes, replicas[..|replicas| - 1]);
    }
  }

  /** The positions of a replica list whose node is registered and online. */
  ghost function OnlineEntries(nodes: map<Bytes, NodeInfo>, replicas: seq<ReplicaInfo>): set<int> {
    set i | 0 <= i < |replicas| && replicas[i].nodeId in nodes && nodes[replicas[i].nodeId].online
  }

  /** The positions that name this node. */
  ghost function Naming(replicas: seq<ReplicaInfo>, id: Bytes): set<int> {
    set i | 0 <= i < |replicas| && replicas[i].nodeId == id
  }

  /** `Live` counts exactly these positions. */
  lemma {:induction false} LiveIsCount(nodes: map<Bytes, NodeInfo>, replicas: seq<ReplicaInfo>)
    ensures Live(nodes, replicas) == |OnlineEntries(nodes, replicas)|
    ensures OnlineEntries(nodes, replicas) ==
            set i | 0 <= i < |replicas| && replicas[i].nodeId in nodes &&
                    nodes[replicas[i].nodeId].online
  {
    if replicas == [] {
      assert OnlineEntries(nodes, replicas) == {};
    } else {
      var n := |replicas| - 1;
      var front := replicas[..n];
      LiveIsCount(nodes, front);
      var one := if IsLive(nodes, replicas[n]) then {n} else {};
      assert OnlineEntries(nodes, replicas) == OnlineEntries(nodes, front) + one;
      assert n !in OnlineEntries(nodes, front);
    }
  }

  /** Marking a node offline takes exactly its own entries out of the count, if it was online; and
      afterwards none of its entries counts. */
  lemma OfflineDropsItsEntries(m: Meta, id: Bytes, replicas: seq<ReplicaInfo>)
    ensures var after := MarkOffline(m, id).0.nodes;
            && OnlineEntries(after, replicas) ==
               OnlineEntries(m.nodes, replicas) - Naming(replicas, id)
            && |OnlineEntries(after, replicas)| ==
               |OnlineEntries(m.nodes, replicas)| -
               (if id in m.nodes && m.nodes[id].online then |Naming(replicas, id)| else 0)
            && forall i :: 0 <= i < |replicas| && replicas[i].nodeId == id ==>
                 !(id in after && after[id].online)
  {
    hide OnlineEntries, Naming;
    var before, named := OnlineEntries(m.nodes, replicas), Naming(replicas, id);
    OfflineEntries(m, id, replicas);
    if id in m.nodes && m.nodes[id].online {
      assert before == (before - named) + named;
    } else {
      assert before - named == before;
    }
  }

  lemma OfflineEntries(m: Meta, id: Bytes, replicas: seq<ReplicaInfo>)
    ensures OnlineEntries(MarkOffline(m, id).0.nodes, replicas) ==
            OnlineEntries(m.nodes, replicas) - Naming(replicas, id)
    ensures if id in m.nodes && m.nodes[id].online
            then Naming(replicas, id) <= OnlineEntries(m.nodes, replicas)
            else OnlineEntries(m.nodes, replicas) !! Naming(replicas, id)
  {
  }

  lemma {:induction false} OneNotLive(nodes: map<Bytes, NodeInfo>, replicas: seq<ReplicaInfo>,
                                      r: ReplicaInfo)
    requires r in replicas && !IsLive(nodes, r)
    ensures Live(nodes, replicas) < |replicas|
  {
    var front := replicas[..|replicas| - 1];
    assert replicas == front + [replicas[|replicas| - 1]];
    if r in front {
      OneNotLive(nodes, front, r);
    }
  }

  function UnderIn(nodes: map<Bytes, NodeInfo>, chunks: seq<ChunkInfo>, rf: nat): seq<ChunkInfo> {
    if chunks == [] then []
    else
      var rest := UnderIn(nodes, chunks[..|chunks| - 1], rf);
      var c := chunks[|chunks| - 1];
      if Live(nodes, c.replicas) < rf then rest + [c] else rest
  }

  lemma {:induction false} UnderInMembers(nodes: map<Bytes, NodeInfo>, chunks: seq<ChunkInfo>,
                                          rf: nat, c: ChunkInfo)
    ensures c in UnderIn(nodes, chunks, rf) <==> c in chunks && Live(nodes, c.replicas) < rf
  {
    if chunks != [] {
      UnderInMembers(nodes, chunks[..|chunks| - 1], rf, c);
      assert chunks == chunks[..|chunks| - 1] + [chunks[|chunks| - 1]];
    }
  }

  function UnderAll(m: Meta, order: seq<Bytes>, rf: nat): seq<ChunkInfo>
    requires forall k :: k in order ==> k in m.objects
  {
    if order == [] then []
    else UnderAll(m, order[..|order| - 1], rf) +
         UnderIn(m.nodes, m.objects[order[|order| - 1]].chunks, rf)
  }

  lemma {:induction false} UnderAllHolds(m: Meta, order: seq<Bytes>, rf: nat, c: ChunkInfo)
    requires forall k :: k in order ==> k in m.objects
    ensures c in UnderAll(m, order, rf) <==>
            exists k :: k in order && c in m.objects[k].chunks && Live(m.nodes, c.replicas) < rf
  {
    if order != [] {
      var front, last := order[..|order| - 1], order[|order| - 1];
      assert order == front + [last];
      UnderAllHolds(m, front, rf, c);
      UnderInMembers(m.nodes, m.objects[last].chunks, rf, c);
      assert last in order;
    }
  }

  /** The scan reports a chunk exactly when some object holds it and fewer than `rf` of its replica
      entries name a node that is registered and online. */
  lemma UnderAllMembers(m: Meta, order: seq<Bytes>, rf: nat, c: ChunkInfo)
    requires forall k :: k in order ==> k in m.objects
    ensures c in UnderAll(m, order, rf) <==>
            && (exists k :: k in order && c in m.objects[k].chunks)
            && |set i | 0 <= i < |c.replicas| && c.replicas[i].nodeId in m.nodes &&
                        m.nodes[c.replicas[i].nodeId].online| < rf
  {
    UnderAllHolds(m, order, rf, c);
    LiveIsCount(m.nodes, c.replicas);
  }

  /** Some object holds this chunk, with at most `rf` replicas, one of them on this node. */
  ghost predicate Affected(m: Meta, id: Bytes, rf: nat, c: ChunkInfo) {
    && (exists k :: k in m.objects && c in m.objects[k].chunks)
    && |c.replicas| <= rf
    && exists r :: r in c.replicas && r.nodeId == id
  }

  /** The scan reports every chunk that a node which is not online leaves short. */
  lemma AffectedAreScanned(m: Meta, order: seq<Bytes>, rf: nat, id: Bytes, c: ChunkInfo)
    requires forall k :: k in order <==> k in m.objects
    requires !(id in m.nodes && m.nodes[id].online) && Affected(m, id, rf, c)
    ensures c in UnderAll(m, order, rf)
  {
    hide UnderAll;
    var r :| r in c.replicas && r.nodeId == id;
    OneNotLive(m.nodes, c.replicas, r);
    UnderAllHolds(m, order, rf, c);
  }

  /** As soon as a node is marked offline, the scan reports every chunk that lists it among at most
      `rf` replicas, whatever the others are. */
  lemma MarkedNodesChunksAreScanned(m: Meta, order: seq<Bytes>, rf: nat, id: Bytes, c: ChunkInfo)
    requires forall k :: k in order <==> k in m.objects
    requires Affected(m, id, rf, c)
    ensures c in UnderAll(MarkOffline(m, id).0, order, rf)
  {
    hide UnderAll;
    var m' := MarkOffline(m, id).0;
    assert Affected(m', id, rf, c);
    AffectedAreScanned(m', order, rf, id, c);
  }
}
