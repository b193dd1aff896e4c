/** Splitting an object into chunks (src/metadata/metadata_store.cpp, plan_chunks). */
module Planner {
  import opened Bytes
  import opened Types

  /** The chunk size in bytes, computed in 32 bits (src/metadata/metadata_service_impl.cpp:72). */
  function ChunkSizeBytes(mb: nat): nat {
    mb * 0x10_0000 % U32_LIMIT
  }

  /** Below 4096 MB the size is what it says. The product is zero, and the planner's loop would make
      no progress, exactly for multiples of 4096. */
  lemma ChunkSizePositive(mb: nat)
    ensures ChunkSizeBytes(mb) == mb % 4096 * 1024 * 1024
    ensures ChunkSizeBytes(mb) > 0 <==> mb % 4096 != 0
  {
    var q, r := mb / 4096, mb % 4096;
    assert mb * 0x10_0000 == q * U32_LIMIT + r * 0x10_0000;
    QuotientUnique(mb * 0x10_0000, U32_LIMIT, q, r * 0x10_0000);
  }

  function ChunkCount(size: nat, chunkSize: nat): nat
    requires chunkSize > 0
  {
    if size == 0 then 1 else (size + chunkSize - 1) / chunkSize
  }

  function Planned(objectId: Bytes, uuid: Bytes, index: nat, size: nat): ChunkInfo {
    ChunkInfo(uuid, objectId, index, size, [], 1, [])
  }

  /** The size of chunk `k`: full, except that the last one takes what is left. */
  function PlannedSize(size: nat, chunkSize: nat, k: nat): nat
    requires chunkSize > 0
  {
    if k + 1 < ChunkCount(size, chunkSize) then chunkSize
    else size - (ChunkCount(size, chunkSize) - 1) * chunkSize
  }

  lemma CountBounds(size: nat, chunkSize: nat)
    requires chunkSize > 0
    ensures var n := ChunkCount(size, chunkSize);
            n > 0 && (n - 1) * chunkSize <= size <= n * chunkSize
    ensures size > 0 ==> (ChunkCount(size, chunkSize) - 1) * chunkSize < size
  {
    if size > 0 {
      var n := ChunkCount(size, chunkSize);
      assert size + chunkSize - 1 == n * chunkSize + (size + chunkSize - 1) % chunkSize;
      assert (n - 1) * chunkSize == n * chunkSize - chunkSize;
    }
  }

  /** A list of chunks that is the plan of an object: one uuid each, indices 0, 1, 2, ..., all
      full except possibly the last. */
  ghost predicate IsPlan(chunks: seq<ChunkInfo>, objectId: Bytes, size: nat, chunkSize: nat,
                         uuids: seq<Bytes>)
    requires chunkSize > 0
  {
    && |chunks| == ChunkCount(size, chunkSize) <= |uuids|
    && forall k :: 0 <= k < |chunks| ==>
         chunks[k] == Planned(objectId, uuids[k], k, PlannedSize(size, chunkSize, k))
  }

  function Plan(objectId: Bytes, size: nat, chunkSize: nat, uuids: seq<Bytes>)
    : (chunks: seq<ChunkInfo>)
    requires chunkSize > 0
    requires |uuids| >= ChunkCount(size, chunkSize)
    ensures IsPlan(chunks, objectId, size, chunkSize, uuids)
  {
    seq(ChunkCount(size, chunkSize), k requires 0 <= k < ChunkCount(size, chunkSize) =>
      Planned(objectId, uuids[k], k, PlannedSize(size, chunkSize, k)))
  }

  /** Equal chunks add up. */
  lemma {:induction false} TotalOfEqual(chunks: seq<ChunkInfo>, chunkSize: nat)
    requires forall k :: 0 <= k < |chunks| ==> chunks[k].size == chunkSize
    ensures TotalSize(chunks) == |chunks| * chunkSize
  {
    if chunks != [] {
      TotalOfEqual(chunks[..|chunks| - 1], chunkSize);
      assert |chunks| * chunkSize == (|chunks| - 1) * chunkSize + chunkSize;
    }
  }

  /** The chunk sizes of a plan add up to the object size, all are full but the last, and no chunk
      but that of an empty object is empty. Every record is new: no checksum, no replicas. */
  lemma PlanTotal(chunks: seq<ChunkInfo>, objectId: Bytes, size: nat, chunkSize: nat,
                  uuids: seq<Bytes>)
    requires chunkSize > 0 && IsPlan(chunks, objectId, size, chunkSize, uuids)
    ensures TotalSize(chunks) == size
    ensures forall k :: 0 <= k < |chunks| ==> chunks[k].size <= chunkSize
    ensures forall k :: 0 <= k < |chunks| && size > 0 ==> 0 < chunks[k].size
    ensures forall k :: 0 <= k < |chunks| - 1 ==> chunks[k].size == chunkSize
    ensures forall k :: 0 <= k < |chunks| ==>
              chunks[k] == ChunkInfo(uuids[k], objectId, k, chunks[k].size, [], 1, [])
  {
    CountBounds(size, chunkSize);
    var n := |chunks|;
    var front := chunks[..n - 1];
    TotalOfEqual(front, chunkSize);
    assert n * chunkSize == (n - 1) * chunkSize + chunkSize;
  }

  /** The planner's loop, with the 32-bit chunk index. `uuids` are the values that the successive
      calls of `generate_uuid` return. */
  method PlanChunks(objectId: Bytes, size: nat, chunkSize: nat, uuids: seq<Bytes>)
    returns (chunks: seq<ChunkInfo>)
    requires chunkSize > 0
    requires ChunkCount(size, chunkSize) <= U32_LIMIT
    requires |uuids| >= ChunkCount(size, chunkSize)
    ensures chunks == Plan(objectId, size, chunkSize, uuids)
  {
    hide ChunkCount, PlannedSize, Remaining;
    chunks := [];
    ghost var n := ChunkCount(size, chunkSize);
    PlanBegins(size, chunkSize);
    if size == 0 {
      return [Planned(objectId, uuids[0], 0, 0)];
    }
    var index: nat := 0;
    var remaining := size;
    while remaining > 0
      invariant |chunks| <= n && remaining == Remaining(size, chunkSize, |chunks|)
      invariant index == |chunks| % U32_LIMIT
      invariant forall k :: 0 <= k < |chunks| ==>
                  chunks[k] == Planned(objectId, uuids[k], k, PlannedSize(size, chunkSize, k))
    {
      PlanStep(size, chunkSize, |chunks|);
      var c := Planned(objectId, uuids[|chunks|], index,
                       if remaining < chunkSize then remaining else chunkSize);
      index := (index + 1) % U32_LIMIT;
      chunks := chunks + [c];
      remaining := remaining - c.size;
    }
    PlanEnds(size, chunkSize, |chunks|);
  }

  /** The bytes that the chunks from `k` on still have to cover. */
  function Remaining(size: nat, chunkSize: nat, k: nat): int
    requires chunkSize > 0
  {
    if k < ChunkCount(size, chunkSize) then size - k * chunkSize else 0
  }

  lemma PlanBegins(size: nat, chunkSize: nat)
    requires chunkSize > 0
    ensures 0 < ChunkCount(size, chunkSize) && Remaining(size, chunkSize, 0) == size
    ensures size == 0 ==> ChunkCount(size, chunkSize) == 1 && PlannedSize(size, chunkSize, 0) == 0
  {
    CountBounds(size, chunkSize);
  }

  lemma PlanStep(size: nat, chunkSize: nat, k: nat)
    requires chunkSize > 0 && size > 0 && Remaining(size, chunkSize, k) > 0
    ensures k < ChunkCount(size, chunkSize)
    ensures var left := Remaining(size, chunkSize, k);
            && 0 < PlannedSize(size, chunkSize, k) == (if left < chunkSize then left else chunkSize)
            && Remaining(size, chunkSize, k + 1) == left - PlannedSize(size, chunkSize, k)
  {
    CountBounds(size, chunkSize);
    var n := ChunkCount(size, chunkSize);
    assert (k + 1) * chunkSize == k * chunkSize + chunkSize;
    if k + 1 < n {
      MulMono(k + 1, n - 1, chunkSize);
    } else {
      assert k + 1 == n;
    }
  }

  lemma PlanEnds(size: nat, chunkSize: nat, k: nat)
    requires chunkSize > 0 && size > 0 && k <= ChunkCount(size, chunkSize)
    requires Remaining(size, chunkSize, k) <= 0
    ensures k == ChunkCount(size, chunkSize)
  {
    CountBounds(size, chunkSize);
    if k < ChunkCount(size, chunkSize) {
      MulMono(k, ChunkCount(size, chunkSize) - 1, chunkSize);
    }
  }

  lemma MulMono(a: nat, b: nat, c: nat)
    requires a <= b
    ensures a * c <= b * c
  {
    assert b * c == a * c + (b - a) * c;
  }
}
