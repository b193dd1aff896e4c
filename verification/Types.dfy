/** The records that the metadata service, the client and the recovery manager exchange
    (include/common/types.hpp). Names, ids and addresses are byte strings. */
module Types {
  import opened Bytes

  datatype NodeInfo = NodeInfo(id: Bytes, address: Bytes, online: bool, chunkCount: nat)

  datatype ReplicaInfo = ReplicaInfo(nodeId: Bytes, address: Bytes, isPrimary: bool, version: nat)

  datatype ChunkInfo = ChunkInfo(
    chunkId: Bytes,
    objectId: Bytes,
    chunkIndex: nat,
    size: nat,
    checksum: Bytes,
    version: nat,
    replicas: seq<ReplicaInfo>)

  datatype ObjectInfo = ObjectInfo(
    objectId: Bytes,
    filename: Bytes,
    size: nat,
    replicationFactor: nat,
    chunks: seq<ChunkInfo>)

  datatype WriteAckPolicy = Majority | All

  datatype Strategy = RoundRobin | LeastUsed | Random

  /** How many acknowledged writes a chunk needs. */
  function Required(rf: nat, policy: WriteAckPolicy): nat {
    if policy.All? then rf else rf / 2 + 1
  }

  /** The bytes that a list of chunks covers. */
  function TotalSize(chunks: seq<ChunkInfo>): nat {
    if chunks == [] then 0 else TotalSize(chunks[..|chunks| - 1]) + chunks[|chunks| - 1].size
  }

  lemma {:induction false} TotalSizeConcat(a: seq<ChunkInfo>, b: seq<ChunkInfo>)
    ensures TotalSize(a + b) == TotalSize(a) + TotalSize(b)
  {
    if b == [] {
      assert a + b == a;
    } else {
      var front := b[..|b| - 1];
      assert (a + b)[..|a + b| - 1] == a + front;
      TotalSizeConcat(a, front);
    }
  }
}
