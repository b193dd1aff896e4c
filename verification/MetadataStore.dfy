/** The metadata store's tables (src/metadata/metadata_store.cpp): objects by id, ids by file
    name, and the node table. Each locked region of the source is one atomic step here. */
module MetadataStore {
  import opened Bytes
  import opened Types
  import opened Planner

  datatype Meta = Meta(
    objects: map<Bytes, ObjectInfo>,
    names: map<Bytes, Bytes>,
    nodes: map<Bytes, NodeInfo>)

  const EMPTY: Meta := Meta(map[], map[], map[])

  /** The two object tables are exact inverses of each other. */
  ghost predicate Tables(m: Meta) {
    && (forall id :: id in m.objects ==>
          && m.objects[id].objectId == id
          && m.objects[id].filename in m.names
          && m.names[m.objects[id].filename] == id)
    && (forall name :: name in m.names ==>
          && m.names[name] in m.objects
          && m.objects[m.names[name]].filename == name)
  }

  // ---- Operations ----

  function CreateObject(m: Meta, filename: Bytes, size: nat, rf: nat, chunkSize: nat,
                        id: Bytes, uuids: seq<Bytes>): (Meta, Option<ObjectInfo>)
    requires chunkSize > 0
    requires |uuids| >= ChunkCount(size, chunkSize)
  {
    if filename in m.names then (m, None) else
    var obj := ObjectInfo(id, filename, size, rf, Plan(id, size, chunkSize, uuids));
    (m.(objects := m.objects[id := obj], names := m.names[filename := id]), Some(obj))
  }

  function DeleteObject(m: Meta, id: Bytes): (Meta, bool) {
    if id !in m.objects then (m, false) else
    (m.(names := m.names - {m.objects[id].filename}, objects := m.objects - {id}), true)
  }

  function LocateByFilename(m: Meta, filename: Bytes): Option<ObjectInfo> {
    if filename !in m.names then None
    else if m.names[filename] !in m.objects then None
    else Some(m.objects[m.names[filename]])
  }

  /** Replaces the first chunk that has the id of `chunk`. */
  function ReplaceChunk(chunks: seq<ChunkInfo>, chunk: ChunkInfo): seq<ChunkInfo> {
    if chunks == [] then []
    else if chunks[0].chunkId == chunk.chunkId then [chunk] + chunks[1..]
    else [chunks[0]] + ReplaceChunk(chunks[1..], chunk)
  }

  predicate HasChunk(chunks: seq<ChunkInfo>, id: Bytes) {
    exists k :: 0 <= k < |chunks| && chunks[k].chunkId == id
  }

  function UpdateChunk(m: Meta, id: Bytes, chunk: ChunkInfo): (Meta, bool) {
    if id !in m.objects then (m, false)
    else if !HasChunk(m.objects[id].chunks, chunk.chunkId) then (m, false)
    else
      var obj := m.objects[id];
      (m.(objects := m.objects[id := obj.(chunks := ReplaceChunk(obj.chunks, chunk))]), true)
  }

  /** `ReplaceChunk` changes at most one position, the first with that id. */
  lemma {:induction false} ReplaceChunkAt(chunks: seq<ChunkInfo>, chunk: ChunkInfo, k: nat)
    requires k < |chunks|
    ensures |ReplaceChunk(chunks, chunk)| == |chunks|
    ensures ReplaceChunk(chunks, chunk)[k] ==
            if chunks[k].chunkId == chunk.chunkId &&
               (forall j :: 0 <= j < k ==> chunks[j].chunkId != chunk.chunkId)
            then chunk else chunks[k]
  {
    if chunks[0].chunkId != chunk.chunkId && k > 0 {
      ReplaceChunkAt(chunks[1..], chunk, k - 1);
      assert forall j :: 1 <= j < k ==> chunks[1..][j - 1] == chunks[j];
    } else if chunks[0].chunkId != chunk.chunkId && |chunks| > 1 {
      ReplaceChunkAt(chunks[1..], chunk, 0);
    }
  }

  function RegisterNode(m: Meta, node: NodeInfo): Meta {
    m.(nodes := m.nodes[node.id := node.(online := true)])
  }

  function Heartbeat(m: Meta, id: Bytes, chunkCount: nat): (Meta, bool) {
    if id !in m.nodes then (m, false) else
    (m.(nodes := m.nodes[id := m.nodes[id].(online := true, chunkCount := chunkCount)]), true)
  }

  function MarkOffline(m: Meta, id: Bytes): (Meta, bool) {
    if id !in m.nodes then (m, false) else
    (m.(nodes := m.nodes[id := m.nodes[id].(online := false)]), true)
  }

  // ---- What every operation keeps ----

  lemma CreateKeepsTables(m: Meta, filename: Bytes, size: nat, rf: nat, chunkSize: nat, id: Bytes,
                          uuids: seq<Bytes>)
    requires chunkSize > 0 && |uuids| >= ChunkCount(size, chunkSize)
    requires Tables(m) && id !in m.objects
    ensures Tables(CreateObject(m, filename, size, rf, chunkSize, id, uuids).0)
  {
    hide Plan;
  }

  lemma DeleteKeepsTables(m: Meta, id: Bytes)
    requires Tables(m)
    ensures Tables(DeleteObject(m, id).0)
  {
  }

  lemma UpdateKeepsTables(m: Meta, id: Bytes, chunk: ChunkInfo)
    requires Tables(m)
    ensures Tables(UpdateChunk(m, id, chunk).0)
  {
  }

  /** Deleting a freshly created object puts both tables back exactly as they were. */
  lemma DeleteUndoesCreate(m: Meta, filename: Bytes, size: nat, rf: nat, chunkSize: nat, id: Bytes,
                           uuids: seq<Bytes>)
    requires chunkSize > 0 && |uuids| >= ChunkCount(size, chunkSize)
    requires id !in m.objects
    ensures var (m', obj) := CreateObject(m, filename, size, rf, chunkSize, id, uuids);
            obj.Some? ==> DeleteObject(m', id) == (m, true)
  {
    hide Plan;
    var (m', obj) := CreateObject(m, filename, size, rf, chunkSize, id, uuids);
    if obj.Some? {
      assert m'.objects - {id} == m.objects;
      assert m'.names - {filename} == m.names;
    }
  }
}
