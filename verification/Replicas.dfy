/** Replica lists that are collected from acknowledged writes. */
module Replicas {
  import opened Bytes
  import opened Types
  import opened Selection
  import opened Scan
  import opened Protocol

  /** Every entry names one of the nodes. */
  ghost predicate MadeFrom(replicas: seq<ReplicaInfo>, nodes: seq<NodeInfo>) {
    forall r :: r in replicas ==>
      exists n :: n in nodes && r.nodeId == n.id && r.address == n.address
  }

  ghost predicate DistinctNodes(replicas: seq<ReplicaInfo>) {
    forall i, j :: 0 <= i < j < |replicas| ==> replicas[i].nodeId != replicas[j].nodeId
  }

  ghost predicate FirstIsPrimary(replicas: seq<ReplicaInfo>) {
    forall i :: 0 <= i < |replicas| ==> (replicas[i].isPrimary <==> i == 0)
  }

  /** One more write adds its node at the end if it was acknowledged. */
  lemma EntriesStep(nodes: seq<NodeInfo>, acks: seq<bool>, ok: bool, version: nat)
    requires |acks| < |nodes|
    ensures Entries(nodes, acks + [ok], version) ==
            if ok then AddReplica(Entries(nodes, acks, version), nodes[|acks|], version)
            else Entries(nodes, acks, version)
  {
    assert (acks + [ok])[..|acks|] == acks;
  }

  lemma {:induction false} EntriesMade(nodes: seq<NodeInfo>, acks: seq<bool>, version: nat)
    requires |acks| <= |nodes|
    ensures var replicas := Entries(nodes, acks, version);
            |replicas| <= |acks| && MadeFrom(replicas, nodes[..|acks|]) && FirstIsPrimary(replicas)
  {
    if acks != [] {
      var n := |acks| - 1;
      EntriesMade(nodes, acks[..n], version);
      assert nodes[..n + 1] == nodes[..n] + [nodes[n]];
    }
  }

  lemma {:induction false} EntriesDistinct(nodes: seq<NodeInfo>, acks: seq<bool>, version: nat)
    requires |acks| <= |nodes| && DistinctIds(nodes)
    ensures DistinctNodes(Entries(nodes, acks, version))
  {
    if acks != [] {
      var n := |acks| - 1;
      EntriesDistinct(nodes, acks[..n], version);
      EntriesMade(nodes, acks[..n], version);
      var before := Entries(nodes, acks[..n], version);
      forall k | 0 <= k < |before| ensures before[k].nodeId != nodes[n].id {
        assert before[k] in before;
      }
    }
  }

  /** Entries made from selected nodes all count as live under the table of the selection. */
  lemma SelectedAreLive(table: map<Bytes, NodeInfo>, strategy: Strategy, count: nat,
                        nodes: seq<NodeInfo>, acks: seq<bool>, version: nat)
    requires Selectable(table, strategy, count, nodes) && |acks| <= |nodes|
    ensures var replicas := Entries(nodes, acks, version);
            Live(table, replicas) == |replicas| <= count
  {
    hide Entries, DistinctIds;
    var replicas := Entries(nodes, acks, version);
    EntriesMade(nodes, acks, version);
    forall r | r in replicas ensures IsLive(table, r) {
      var n :| n in nodes[..|acks|] && r.nodeId == n.id && r.address == n.address;
      assert n in nodes;
    }
    LiveAll(table, replicas);
  }

  /** The same nodes are registered, and the same of them online. */
  ghost predicate SameFlags(a: map<Bytes, NodeInfo>, b: map<Bytes, NodeInfo>) {
    a.Keys == b.Keys && forall k :: k in a ==> a[k].online == b[k].online
  }

  lemma {:induction false} LiveSame(a: map<Bytes, NodeInfo>, b: map<Bytes, NodeInfo>,
                                    replicas: seq<ReplicaInfo>)
    requires SameFlags(a, b)
    ensures Live(a, replicas) == Live(b, replicas)
  {
    if replicas != [] {
      LiveSame(a, b, replicas[..|replicas| - 1]);
      var r := replicas[|replicas| - 1];
      assert r.nodeId in a <==> r.nodeId in b;
    }
  }
}
