/** The metadata store as an object whose tables are updated in place
    (src/metadata/metadata_store.cpp). Every method is tied to the operation of `MetadataStore`
    that it implements. */
module MetadataService {
  import opened Bytes
  import opened Types
  import opened Planner
  import opened MetadataStore
  import opened Scan
  import Selection

  // ---- The store ----

  class Service {
    var objects: map<Bytes, ObjectInfo>
    var names: map<Bytes, Bytes>
    var nodes: map<Bytes, NodeInfo>
    var roundRobin: nat

    ghost function Contents(): Meta
      reads this
    {
      Meta(objects, names, nodes)
    }

    ghost predicate Valid()
      reads this
    {
      Tables(Contents()) && Selection.Keyed(nodes) && roundRobin < U64_LIMIT
    }

    constructor ()
      ensures Valid() && Contents() == EMPTY && roundRobin == 0
    {
      objects, names, nodes, roundRobin := map[], map[], map[], 0;
    }

    method Create(filename: Bytes, size: nat, rf: nat, chunkSize: nat, id: Bytes,
                  uuids: seq<Bytes>)
      returns (r: Option<ObjectInfo>)
      requires Valid() && id !in objects
      requires chunkSize > 0 && ChunkCount(size, chunkSize) <= U32_LIMIT
      requires |uuids| >= ChunkCount(size, chunkSize)
      modifies this`objects, this`names
      ensures Valid()
      ensures (Contents(), r) ==
              CreateObject(old(Contents()), filename, size, rf, chunkSize, id, uuids)
      ensures r.Some? <==> filename !in old(names)
      ensures r.None? ==> objects == old(objects) && names == old(names)
      ensures r.Some? ==>
                && r.value == ObjectInfo(id, filename, size, rf, r.value.chunks)
                && IsPlan(r.value.chunks, id, size, chunkSize, uuids)
                && objects == old(objects)[id := r.value] && names == old(names)[filename := id]
    {
      CreateKeepsTables(Contents(), filename, size, rf, chunkSize, id, uuids);
      if filename in names {
        return None;
      }
      var chunks := PlanChunks(id, size, chunkSize, uuids);
      var obj := ObjectInfo(id, filename, size, rf, chunks);
      objects := objects[id := obj];
      names := names[filename := id];
      return Some(obj);
    }

    method Delete(id: Bytes) returns (ok: bool)
      requires Valid()
      modifies this`objects, this`names
      ensures Valid()
      ensures (Contents(), ok) == DeleteObject(old(Contents()), id)
      ensures ok <==> id in old(objects)
      ensures objects == old(objects) - {id}
      ensures names == if ok then old(names) - {old(objects)[id].filename} else old(names)
    {
      DeleteKeepsTables(Contents(), id);
      if id !in objects {
        assert objects - {id} == objects;
        return false;
      }
      names := names - {objects[id].filename};
      objects := objects - {id};
      return true;
    }

    /** Both lock regions back to back, with nothing in between. */
    method DeleteByFilename(filename: Bytes) returns (ok: bool)
      requires Valid()
      modifies this`objects, this`names
      ensures Valid()
      ensures ok <==> filename in old(names)
      ensures ok ==> objects == old(objects) - {old(names)[filename]}
      ensures names == old(names) - {filename}
    {
      if filename !in names {
        assert names - {filename} == names;
        return false;
      }
      var id := names[filename];
      ok := Delete(id);
    }

    method Locate(filename: Bytes) returns (r: Option<ObjectInfo>)
      requires Valid()
      ensures r == LocateByFilename(Contents(), filename)
      ensures r.Some? <==> filename in names
      ensures r.Some? ==> r.value.filename == filename
    {
      if filename !in names {
        return None;
      }
      var id := names[filename];
      if id !in objects {
        return None;
      }
      return Some(objects[id]);
    }

    /** Succeeds exactly if the object has a chunk of that id, and then replaces the first one. */
    method Update(id: Bytes, chunk: ChunkInfo) returns (ok: bool, ghost at: nat)
      requires Valid()
      modifies this`objects, this`names
      ensures Valid()
      ensures (Contents(), ok) == UpdateChunk(old(Contents()), id, chunk)
      ensures names == old(names) && (!ok ==> objects == old(objects))
      ensures !ok ==> id !in objects ||
                      forall k :: 0 <= k < |objects[id].chunks| ==>
                        objects[id].chunks[k].chunkId != chunk.chunkId
      ensures ok ==>
                && id in old(objects) && at < |old(objects)[id].chunks|
                && var chunks := old(objects)[id].chunks;
                   && chunks[at].chunkId == chunk.chunkId
                   && (forall k :: 0 <= k < at ==> chunks[k].chunkId != chunk.chunkId)
                   && objects == old(objects)[id := old(objects)[id].(chunks := chunks[at := chunk])]
    {
      UpdateKeepsTables(Contents(), id, chunk);
      at := 0;
      if id !in objects {
        return false, 0;
      }
      var chunks := objects[id].chunks;
      var i := 0;
      while i < |chunks| && chunks[i].chunkId != chunk.chunkId
        invariant i <= |chunks|
        invariant forall k :: 0 <= k < i ==> chunks[k].chunkId != chunk.chunkId
      {
        i := i + 1;
      }
      if i == |chunks| {
        return false, 0;
      }
      ReplaceFirst(chunks, chunk, i);
      objects := objects[id := objects[id].(chunks := chunks[i := chunk])];
      return true, i;
    }

    method Register(node: NodeInfo)
      requires Valid()
      modifies this`nodes
      ensures Valid()
      ensures Contents() == RegisterNode(old(Contents()), node)
    {
      nodes := nodes[node.id := node];
      nodes := nodes[node.id := nodes[node.id].(online := true)];
    }

    method UpdateHeartbeat(id: Bytes, chunkCount: nat) returns (ok: bool)
      requires Valid()
      modifies this`nodes
      ensures Valid()
      ensures (Contents(), ok) == Heartbeat(old(Contents()), id, chunkCount)
    {
      if id !in nodes {
        return false;
      }
      nodes := nodes[id := nodes[id].(online := true)];
      nodes := nodes[id := nodes[id].(chunkCount := chunkCount)];
      assert nodes == old(nodes)[id := old(nodes)[id].(online := true, chunkCount := chunkCount)];
      return true;
    }

    method SetOffline(id: Bytes) returns (ok: bool)
      requires Valid()
      modifies this`nodes
      ensures Valid()
      ensures (Contents(), ok) == MarkOffline(old(Contents()), id)
    {
      if id !in nodes {
        return false;
      }
      nodes := nodes[id := nodes[id].(online := false)];
      return true;
    }

    /** Three nested loops: objects in table order, their chunks, their replicas. */
    method GetUnderReplicated(order: seq<Bytes>, rf: nat) returns (result: seq<ChunkInfo>)
      requires Selection.Enumerates(order, objects.Keys)
      ensures result == UnderAll(Contents(), order, rf)
      ensures forall c :: c in result <==>
                && (exists k :: k in objects && c in objects[k].chunks)
                && |set i | 0 <= i < |c.replicas| && c.replicas[i].nodeId in nodes &&
                            nodes[c.replicas[i].nodeId].online| < rf
    {
      result := [];
      for i := 0 to |order|
        invariant result == UnderAll(Contents(), order[..i], rf)
      {
        assert order[..i + 1][..i] == order[..i];
        var chunks := objects[order[i]].chunks;
        var found := [];
        for j := 0 to |chunks|
          invariant found == UnderIn(nodes, chunks[..j], rf)
        {
          assert chunks[..j + 1][..j] == chunks[..j];
          var live := CountLive(chunks[j].replicas);
          if live < rf {
            found := found + [chunks[j]];
          }
        }
        assert chunks[..|chunks|] == chunks;
        result := result + found;
      }
      assert order[..|order|] == order;
      forall c
        ensures c in result <==>
                && (exists k :: k in objects && c in objects[k].chunks)
                && |set i | 0 <= i < |c.replicas| && c.replicas[i].nodeId in nodes &&
                            nodes[c.replicas[i].nodeId].online| < rf
      {
        UnderAllMembers(Contents(), order, rf, c);
        assert forall k :: k in order <==> k in objects;
      }
    }

    method CountLive(replicas: seq<ReplicaInfo>) returns (live: nat)
      ensures live == |set i | 0 <= i < |replicas| && replicas[i].nodeId in nodes &&
                               nodes[replicas[i].nodeId].online|
      ensures live == Live(nodes, replicas)
    {
      LiveIsCount(nodes, replicas);
      live := 0;
      for i := 0 to |replicas|
        invariant live == Live(nodes, replicas[..i])
      {
        assert replicas[..i + 1][..i] == replicas[..i];
        if replicas[i].nodeId in nodes && nodes[replicas[i].nodeId].online {
          live := live + 1;
        }
      }
      assert replicas[..|replicas|] == replicas;
    }

    /** Advances the round-robin counter and nothing else. */
    method Select(order: seq<Bytes>, shuffled: seq<NodeInfo>, count: nat, strategy: Strategy)
      returns (selected: seq<NodeInfo>)
      requires Valid() && Selection.Enumerates(order, nodes.Keys)
      requires multiset(shuffled) == multiset(Selection.Online(nodes, order))
      modifies this`roundRobin
      ensures Valid()
      ensures Selection.Selectable(nodes, strategy, count, selected)
      ensures !strategy.RoundRobin? ==>
                && roundRobin == old(roundRobin)
                && |selected| == Selection.Min(count, |Selection.Online(nodes, order)|)
      ensures strategy.RoundRobin? && Selection.Online(nodes, order) != [] ==>
                && selected == Selection.RoundRobinPicks(Selection.Online(nodes, order),
                                                         old(roundRobin), count)
                && roundRobin == (old(roundRobin) + count) % U64_LIMIT
      ensures strategy.LeastUsed? ==>
                && (forall i, j :: 0 <= i < j < |selected| ==>
                      selected[i].chunkCount <= selected[j].chunkCount)
                && (forall n, m ::
                      n in selected && m in Selection.Online(nodes, order) && m !in selected ==>
                        n.chunkCount <= m.chunkCount)
    {
      hide Selection.RoundRobinPicks, Selection.PickIndex, Tables;
      selected, roundRobin :=
        Selection.SelectNodes(nodes, order, shuffled, roundRobin, count, strategy);
    }
  }

  lemma {:induction false} ReplaceFirst(chunks: seq<ChunkInfo>, chunk: ChunkInfo, i: nat)
    requires i < |chunks| && chunks[i].chunkId == chunk.chunkId
    requires forall k :: 0 <= k < i ==> chunks[k].chunkId != chunk.chunkId
    ensures ReplaceChunk(chunks, chunk) == chunks[i := chunk]
  {
    if i > 0 {
      assert forall k :: 0 <= k < i - 1 ==> chunks[1..][k] == chunks[k + 1];
      ReplaceFirst(chunks[1..], chunk, i - 1);
    }
  }
}
