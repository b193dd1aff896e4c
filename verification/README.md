# A verified model of a chunked, replicated object store

The system keeps each object as fixed-size chunks, each on several storage nodes. A metadata
service plans the chunks and remembers where they are; a client writes, reads and deletes them; a
recovery process re-replicates what has too few live copies; a small election picks the
coordinator. This project models that logic in Dafny and proves what it keeps in every run.

## How the model is laid out

| files | what they hold |
|---|---|
| `Bytes`, `Types`, `Sorting` | byte strings and big-endian numbers, the shared records, an insertion sort |
| `ChunkFormat` | the on-disk format: a specification pair (`Serialize`, `Deserialize`), its laws, and the buffer loops proved equal to it |
| `ChunkStore` | one node's directory, its in-memory index, every way a write or delete can stop, whole runs with crashes, and the class itself |
| `Planner`, `Selection`, `Scan`, `Listing`, `MetadataStore`, `NodeTable`, `MetadataRuns`, `MetadataService` | the metadata store: planning, node selection, the under-replication scan, paging, the two object tables, the node table over its events, whole runs, and the class itself |
| `Protocol` | the replicated store as one step system: metadata, all directories, and any number of puts, gets, repairs and deletes in flight |
| `Integrity`, `IntegrityRuns` | a get never returns wrong data; tables keep their plans; deleted objects stay deleted |
| `Durability`, `DurabilityRuns`, `Survival` | what an acknowledged write and a published replica list are worth; a put survives the loss of fewer nodes than its quorum |
| `Replicas`, `RepairRuns`, `RepairTraces` | what a repair leaves in the tables over whole runs, exactly when it can lower the number of live replicas, and the runs in which it does |
| `Network`, `Client`, `Recovery` | the client's and the recovery's own loops, run against the step system with everybody else interleaved around each request |
| `ThreadPool` | the pool under every interleaving of submitters, workers and shutdown, and the class |
| `Priorities`, `Election`, `ElectionRuns`, `ElectionFaults`, `ElectionService` | node priorities, overlapping elections as a step system, what is left of their promises when requests are lost, and the recursive cascade as a class whose calls are runs of that system |
| `Sha256`, `Sha256Bits`, `KnownAnswer` | the hash loops against FIPS 180-4, its word functions bit by bit, and a known answer worked out round by round |

Everywhere but in the three files on SHA-256 the hash is an arbitrary function, so nothing rests on collision
resistance.

### The step system

A state holds the metadata tables, the directory of every storage address, the set of all requests
ever sent, and one program point per operation. A request either is answered at once or is given
up on; in the second case it may still take effect at any later time, any number of times. Nodes
come and go, disks are wiped, writes stop anywhere, files are published short. Four observers are
carried along and never read by the code: the history (the name and data of the put that each
object id and chunk id came from), `lost` (addresses and chunks where an acknowledged chunk is or
may be missing since it was last written there in full), `repeated` (some selection returned an
address twice) and `corrupt` (some directory was changed arbitrarily).

The storage node's request handlers are not modelled: `WriteChunk` and `ReplicateChunk` are taken
to be the chunk store's `write_chunk`, and a whole-chunk `ReadChunk` to be its `read_chunk`.

### What the code turned out to do

- The reply to `UpdateChunk` is ignored by put and by recovery. So "put succeeded" does not imply
  "readable": `Survival.SuccessWithoutUpdate` is a run in which every node works, one update
  request is not served, the put reports success and a get of the file fails in that state (it
  may succeed later, if the request is still served). `Survival.ReadableIffPublished` says
  exactly when a get succeeds.
- A file stream that fails only when it is closed is not noticed: the chunk is published short.
  It then reads back as nothing (never as wrong data), but the index counts it.
  `ChunkStore.WriteAgrees` is the exact condition.
- `delete_chunk` drops the index entry before it removes the file; if the removal fails the two
  disagree until a restart. `ChunkStore.DeleteAgrees` is the exact condition.
- Round-robin selection does not cap the count at the number of online nodes, so it repeats nodes
  exactly when asked for more (`Selection.RoundRobinDistinct`).
- A successful repair can lower the number of live replicas of the record it replaces, with all
  online flags fixed, because `update_chunk` overwrites whatever is there. With repairs free to
  overlap it never does if and only if all must acknowledge or the replication factor is at most 2
  (`RepairTraces.RepairNeverLowersIff`); for a repair that publishes over the very record it
  scanned, if and only if all must acknowledge or the factor is at most 4
  (`RepairTraces.UndisturbedNeverLowersIff`). Both come with runs for every other configuration.
- The lowest priority wins the election, not the highest as README.md:107-109 of the system says;
  and if two coordinators share the lowest one nobody ever leads (`ElectionRuns.NoLeaderOnTie`).
  The metadata node's main program gives every coordinator the same id
  (src/metadata/metadata_node_main.cpp:42), so two such coordinators always tie.
- A coordinator whose election requests are lost takes that for consent: it leads as soon as no
  peer of no higher priority answers in time (`ElectionService.Coordinators.StartElection`).
- With lost election requests, at most one leader and fixed generations are kept if and only if
  there is at most one coordinator (`ElectionFaults.OneLeaderIff`,
  `ElectionFaults.GenerationsFixedIff`), and set leader flags stay set if and only if all
  coordinators have the same id (`ElectionFaults.FlagsStayIff`).
- The magic number of the chunk format is the bytes "DESK"; the comment beside it says "DSEK"
  (include/chunk/chunk_format.hpp:23). `ChunkFormat.Layout` follows the number.
- A pool of zero threads accepts tasks, shuts down cleanly and never runs them
  (`ThreadPool.NoWorkersLoseTasks`).
- The chunk size in bytes is computed in 32 bits; it is zero exactly for multiples of 4096 MB
  (`Planner.ChunkSizePositive`), and then the planner's loop makes no progress.

## Model

| member | source | states |
|---|---|---|
| `ChunkFormat.RoundTrip` | src/chunk/chunk_format.cpp:72-102 | serializing and deserializing gives the header and payload back if and only if they are well formed (field widths, size and checksum match) |
| `ChunkFormat.AcceptedIsCanonical` | src/chunk/chunk_format.cpp:79-102 | every accepted byte string is well formed and re-serializes to itself |
| `ChunkFormat.PrefixFree` | src/chunk/chunk_format.cpp:26-102 | no strict extension of an accepted file is accepted, even under another hash function |
| `ChunkFormat.TruncationRejected` | src/chunk/chunk_format.cpp:79-102 | a file cut off at any byte is rejected |
| `ChunkFormat.SerializeInjective` | src/chunk/chunk_format.cpp:72-77 | two headers and payloads with the same image are the same |
| `ChunkFormat.Layout` | src/chunk/chunk_format.cpp:54-77 | the place of every field: the four magic bytes, version, chunk id, object id, size, checksum and creation time at their offsets, each string behind its length, then the payload |
| `ChunkFormat.DeserializeOfPrinted` | src/chunk/chunk_format.cpp:94-98 | what a printed header followed by any bytes is read as |
| `ChunkFormat.AppendU32` | src/chunk/chunk_format.cpp:8-13 | appends the four big-endian bytes |
| `ChunkFormat.AppendU64` | src/chunk/chunk_format.cpp:15-19 | the loop appends the eight big-endian bytes |
| `ChunkFormat.AppendString` | src/chunk/chunk_format.cpp:21-24 | appends the length and the bytes |
| `ChunkFormat.HeaderOnlyBytes` | src/chunk/chunk_format.cpp:54-70 | builds the encoded header, whose length is `header_size` |
| `ChunkFormat.ReadU32` | src/chunk/chunk_format.cpp:26-34 | reads four bytes big-endian or reports an underflow, and advances the position exactly then |
| `ChunkFormat.ReadU64` | src/chunk/chunk_format.cpp:36-43 | the shifting loop reads eight bytes big-endian or reports an underflow |
| `ChunkFormat.ReadString` | src/chunk/chunk_format.cpp:45-52 | reads a length-prefixed string or reports an underflow |
| `ChunkFormat.DeserializeBuffer` | src/chunk/chunk_format.cpp:79-102 | the position-advancing reader computes the specified parser, all error paths included |
| `ChunkStore.NamesApart` | src/chunk/chunk_store.cpp:30-36 | chunk files and temporary files of different chunks never share a name, and temporary files are never scanned |
| `ChunkStore.ImageReads` | src/chunk/chunk_store.cpp:52-72 | a complete image reads back as what was stored, any shorter one as nothing |
| `ChunkStore.WriteReads` | src/chunk/chunk_store.cpp:38-87 | wherever a write stops, its chunk reads as the old value or as the caller's header with hash and creation time filled in (or nothing, if published short), and every other chunk is untouched |
| `ChunkStore.WriteMeans` | src/chunk/chunk_store.cpp:41-58 | a write succeeds exactly if size and any given checksum are right and the file was published; a refused one changes nothing; a full one reads back as the caller's fields with the payload's hash |
| `ChunkStore.DeleteReads` | src/chunk/chunk_store.cpp:111-121 | a delete affects at most the chunk it names |
| `ChunkStore.WriteAgrees` | src/chunk/chunk_store.cpp:81-86 | after a write, index and total agree with the directory if and only if no short file was published |
| `ChunkStore.DeleteAgrees` | src/chunk/chunk_store.cpp:111-121 | after a delete they agree if and only if the file went away or held no readable chunk |
| `ChunkStore.RunAgrees` | src/chunk/chunk_store.cpp:12-121 | if those two faults did not occur since the last restart, whatever happened before it, the live index and total are those a restart would rebuild |
| `ChunkStore.StepReads` | src/chunk/chunk_store.cpp:38-121 | one event leaves other chunks alone; its own chunk becomes its old value, what an honest write gave (true size, true checksum or none), or nothing, and nothing only by a delete or a short file |
| `ChunkStore.RunReads` | src/chunk/chunk_store.cpp:12-121 | in every run, with any faults and crashes, what reads back under an id was written under that id by a call whose size and non-empty checksum were those of its bytes, with the caller's fields |
| `ChunkStore.RunNamed` | src/chunk/chunk_store.cpp:12-87 | every reachable directory keeps file names and headers in step |
| `ChunkStore.ScanDirectory` | src/chunk/chunk_store.cpp:14-27 | the scan, in any directory order, collects one size per parsing file and their sum |
| `ChunkStore.ChunkStore.constructor` | src/chunk/chunk_store.cpp:12-28 | reopening rebuilds exactly the index and total of the directory |
| `ChunkStore.ChunkStore.WriteChunk` | src/chunk/chunk_store.cpp:38-87 | true exactly if size and any given checksum match and the file was published; a refusal leaves files, index and total as they were; a full write reads back with the caller's fields, the payload's hash, and the clock if no creation time was given |
| `ChunkStore.ChunkStore.ReadChunk` | src/chunk/chunk_store.cpp:89-99 | the chunk's header and payload, or nothing |
| `ChunkStore.ChunkStore.ReadChunkRange` | src/chunk/chunk_store.cpp:101-109 | exactly the payload bytes with positions in the range |
| `ChunkStore.ChunkStore.DeleteChunk` | src/chunk/chunk_store.cpp:111-121 | true exactly if the file was there and was removed; the index entry is dropped even if the removal fails |
| `ChunkStore.ChunkStore.Stats` | src/chunk/chunk_store.cpp:144-152 | the size of the index and the running total; on a store in agreement, the count and bytes of the readable chunks in the directory |
| `Planner.ChunkSizePositive` | src/metadata/metadata_service_impl.cpp:72 | the 32-bit product is the size in bytes of the megabytes modulo 4096, so it is positive if and only if they are no multiple of 4096 |
| `Planner.CountBounds` | src/metadata/metadata_store.cpp:16-43 | the number of chunks is the least that covers the object, and one for an empty object |
| `Planner.PlanTotal` | src/metadata/metadata_store.cpp:16-43 | the chunk sizes add up to the object size, all are full but the last, indices count up, and every record is new |
| `Planner.PlanChunks` | src/metadata/metadata_store.cpp:16-43 | the loop on the remaining bytes yields indices 0, 1, 2, ..., all chunks full except possibly the last |
| `MetadataStore.CreateKeepsTables` | src/metadata/metadata_store.cpp:45-71 | creating keeps the two tables exact inverses |
| `MetadataStore.DeleteKeepsTables` | src/metadata/metadata_store.cpp:73-81 | so does deleting |
| `MetadataStore.UpdateKeepsTables` | src/metadata/metadata_store.cpp:125-142 | so does updating a chunk |
| `MetadataStore.DeleteUndoesCreate` | src/metadata/metadata_store.cpp:45-81 | deleting a just created object restores both tables exactly |
| `MetadataStore.ReplaceChunkAt` | src/metadata/metadata_store.cpp:130-137 | an update changes the first chunk with that id and nothing else |
| `MetadataRuns.RunInv` | src/metadata/metadata_store.cpp:45-142 | in every run with fresh ids the tables stay exact inverses |
| `MetadataRuns.RunGoneIsGone` | src/metadata/metadata_store.cpp:73-142 | in every run a deleted object id never returns |
| `MetadataRuns.DeleteByNameRemovesWhatItSaw` | src/metadata/metadata_store.cpp:83-92 | with anything between its two locks, delete-by-filename removes the object it looked up or nothing |
| `Scan.UnderAllMembers` | src/metadata/metadata_store.cpp:188-204 | the scan reports a chunk if and only if some object holds it and fewer than the factor of its entries name a registered, online node |
| `Scan.LiveIsCount` | src/metadata/metadata_store.cpp:193-197 | the live count used throughout is the number of entries whose node is registered and online |
| `Scan.OfflineDropsItsEntries` | src/metadata/metadata_store.cpp:165-172 | marking a node offline lowers the count by exactly its own entries if it was online, and then none of them counts |
| `Scan.MarkedNodesChunksAreScanned` | src/metadata/metadata_store.cpp:188-204 | after the mark, every chunk that lists the node among at most the factor of replicas is in the scan |
| `NodeTable.NodeTableIs` | src/metadata/metadata_store.cpp:144-172 | over any sequence of registrations, heartbeats and marks: a node is in the table exactly if it registered, online exactly if the last event about it was no mark, with the address of its last registration and the count of its last registration or heartbeat |
| `MetadataService.Service.constructor` | src/metadata/metadata_store.cpp:12-14 | a store starts empty |
| `MetadataService.Service.Create` | src/metadata/metadata_store.cpp:45-71 | refuses exactly a name that is taken, and then changes nothing; otherwise the new object has the given id, name, size and factor and a plan, and is in both tables |
| `MetadataService.Service.Delete` | src/metadata/metadata_store.cpp:73-81 | succeeds exactly if the id is in the table, and removes it and its name |
| `MetadataService.Service.DeleteByFilename` | src/metadata/metadata_store.cpp:83-92 | undisturbed, it removes the name and its object, and succeeds exactly if the name was there |
| `MetadataService.Service.Locate` | src/metadata/metadata_store.cpp:101-108 | finds an object exactly if the name is in the table, and then one of that name |
| `MetadataService.Service.Update` | src/metadata/metadata_store.cpp:125-142 | succeeds exactly if the object has a chunk of that id, replaces the first such chunk and nothing else |
| `MetadataService.Service.Register` | src/metadata/metadata_store.cpp:144-151 | the node is in the table and online |
| `MetadataService.Service.UpdateHeartbeat` | src/metadata/metadata_store.cpp:153-163 | a known node is online with the new chunk count; an unknown one is refused |
| `MetadataService.Service.SetOffline` | src/metadata/metadata_store.cpp:165-172 | a known node is offline; an unknown one is refused |
| `MetadataService.Service.GetUnderReplicated` | src/metadata/metadata_store.cpp:188-204 | the nested loops report exactly the chunks of some object with fewer than the factor of entries on registered, online nodes |
| `MetadataService.Service.CountLive` | src/metadata/metadata_store.cpp:193-200 | the number of replica entries whose node is registered and online |
| `MetadataService.Service.Select` | src/metadata/metadata_store.cpp:206-243 | selects online nodes by strategy, the least used ones in increasing order of their chunk counts, and advances only the round-robin counter |
| `Selection.RoundRobinFair` | src/metadata/metadata_store.cpp:216-222 | out of t picks each of n positions gets between floor(t/n) and ceil(t/n) |
| `Selection.CallsAreFair` | src/metadata/metadata_store.cpp:216-222 | the same for each node over any sequence of calls on a fixed online list without counter wrap |
| `Selection.RoundRobinDistinct` | src/metadata/metadata_store.cpp:216-222 | one call picks distinct nodes if and only if it asks for no more than are online |
| `Selection.SelectNodes` | src/metadata/metadata_store.cpp:206-243 | only registered online nodes; distinct and as many as possible unless round robin, which gives the counter's picks; least used first |
| `Listing.ListObjects` | src/metadata/metadata_store.cpp:110-123 | the page is cut from the strictly increasing list of exactly the matching objects |
| `Listing.ListingUnique` | src/metadata/metadata_store.cpp:110-123 | that list does not depend on the iteration order of the hash map |
| `Listing.PagesTile` | src/metadata/metadata_store.cpp:110-123 | pages at 0, L, 2L, ... put together are the whole list, for every positive L |
| `Bytes.LessEqIsLexicographic` | src/metadata/metadata_store.cpp:110-123 | the order of names is lexicographic on unsigned bytes: a prefix comes first, otherwise the first difference decides |
| `Listing.PagingCoversListing` | src/metadata/metadata_store.cpp:110-123 | any two listings of a store are the same list, and its pages tile it |
| `Listing.PageThrough` | src/metadata/metadata_store.cpp:110-123 | calls of the listing at 0, L, 2L, ..., each with its own iteration order, put together give every matching object exactly once in increasing name order |
| `Integrity.ServeUpdateOk` | src/metadata/metadata_store.cpp:125-142 | a sound update keeps every object's plan and the slices its chunks stand for |
| `Integrity.ServeWriteOk` | src/chunk/chunk_store.cpp:38-87 | a sound write, however it stops, keeps "a file under chunk id c, on any node, holds the slice of c" |
| `Integrity.ServeCreateOk` | src/metadata/metadata_store.cpp:45-71 | a create binds fresh chunk ids to the slices of the new object, which make up its data |
| `IntegrityRuns.StepKeepsInv` | src/client/storage_client.cpp:55-259 | every step of every process, server and fault keeps the integrity invariant |
| `IntegrityRuns.GetReturnsWhatWasPut` | src/client/storage_client.cpp:172-218 | in every interleaved run without arbitrary disk damage, a get that succeeds returns exactly the bytes of a put that was given the located object's file name |
| `IntegrityRuns.LocatedUnderItsName` | src/metadata/metadata_store.cpp:101-108 | in every run an object located under a name carries that name and was created by a put given that name |
| `IntegrityRuns.GetPiecesHashRight` | src/client/storage_client.cpp:35-53 | even under arbitrary damage, every piece an accepted get returns hashes like the slice that was put |
| `IntegrityRuns.AcceptedPiece` | src/client/storage_client.cpp:44-50 | chaining the node's check with the client's header comparison |
| `IntegrityRuns.TablesKeepPlans` | src/metadata/metadata_store.cpp:16-142 | in every run the tables are inverse and every object keeps its plan: indices, sizes, sum and count |
| `IntegrityRuns.AbortRemovesOwnEntries` | src/client/storage_client.cpp:124-132 | a put that misses its quorum, once its delete is served, removes exactly its own table entries |
| `IntegrityRuns.DeletedNeverReturns` | src/recovery/recovery_manager.cpp:144-164 | in every interleaved run a deleted object id never returns, whatever late repair or delayed request is under way |
| `DurabilityRuns.StepDur` | src/client/storage_client.cpp:97-153 | every step keeps the durability invariant |
| `DurabilityRuns.UpdatesCarryQuorums` | src/client/storage_client.cpp:106-152 | every replica list ever sent by a put or a repair: own slice and checksum, at least the quorum and at most the factor of entries, exactly the first primary, distinct addresses unless a selection repeated one, each entry held unless lost or deleted there since |
| `DurabilityRuns.NeverRepeated` | src/metadata/metadata_store.cpp:206-243 | with one address per node no selection of any run repeats an address; for round robin while the factor is at most the number online and the counter does not wrap |
| `Survival.ReadableIffPublished` | src/client/storage_client.cpp:172-218 | with fewer addresses than the quorum lost (since each chunk was last written there) or down, a get on its own succeeds if and only if all chunks are published, and then returns the original bytes |
| `Survival.PutSurvivesLosses` | src/client/storage_client.cpp:97-153 | over every run: after a put whose updates were acknowledged, a get interleaved with anything never fails while all losses and missing answers lie in one set of fewer nodes than the quorum, and returns the put's bytes under the put's name |
| `Survival.PutReadableAlone` | src/client/storage_client.cpp:172-218 | the same for a get on its own, which also ends |
| `Survival.GetStepsRunOut` | src/client/storage_client.cpp:189-213 | every own step of a reading get decreases a measure |
| `Survival.AckedPutIsPublished` | src/client/storage_client.cpp:134-157 | a put that finished with all updates acknowledged has published every chunk |
| `Survival.NoReplicaNoGet` | src/client/storage_client.cpp:35-53 | a chunk that lists no replica makes every get of its object fail |
| `Survival.SuccessWithoutUpdate` | src/client/storage_client.cpp:150-157 | a concrete run: success is reported, one update request was not served, and a get fails though every node answers |
| `Network.World.Call` | src/client/storage_client.cpp:29-32 | one request of one operation, with any steps of all others before it, extends the run by exactly that operation's step |
| `Network.World.Interleave` | src/client/storage_client.cpp:29-32 | steps of all others, those that cannot happen skipped, extend the run and leave this operation where it was |
| `Client.LocateObject` | src/client/storage_client.cpp:172-181 | the get has the object that the name stands for in a state of this call, and it carries that name; or it ends |
| `Client.ReadChunk` | src/client/storage_client.cpp:38-50 | one read: an accepted answer is the next piece, anything else moves to the next replica |
| `Client.ReadChunkFromReplicas` | src/client/storage_client.cpp:35-53 | the loop over replicas follows the step system and returns the accepted piece, or nothing after the last replica |
| `Client.Get` | src/client/storage_client.cpp:172-218 | whatever the others do meanwhile, on success the appended data are the bytes of a put that was given this very file name |
| `Client.CreateObject` | src/client/storage_client.cpp:60-75 | the put has a plan for its new object; nothing comes back only if the request was not answered or the name was taken in a state of this call |
| `Client.SelectNodes` | src/client/storage_client.cpp:97-104 | the put has nodes selected from the table of a state of this call; or, only if the request is not answered, it ends and leaves the tables, and so its object, unchanged |
| `Client.WriteChunkToNode` | src/client/storage_client.cpp:17-33 | the header and slice sent are those of the planned chunk; true exactly if acknowledged |
| `Client.UpdateChunk` | src/client/storage_client.cpp:134-152 | the chunk record with the collected replicas is sent, and the put goes on whatever the reply |
| `Client.WriteToNodes` | src/client/storage_client.cpp:106-119 | the replica list holds exactly the acknowledging nodes in order, the first as primary, and its length is the success count |
| `Client.CheckQuorum` | src/client/storage_client.cpp:121-132 | goes on exactly if the acknowledgements reach the factor, or more than half of it under the majority policy |
| `Client.AbortPut` | src/client/storage_client.cpp:124-132 | sends a delete of the put's own object and ends |
| `Client.SliceInBounds` | src/client/storage_client.cpp:80-87 | in every run the slice of the current chunk lies within the data |
| `Client.PutOneChunk` | src/client/storage_client.cpp:80-153 | one chunk: the slice at the running offset, the selection, the writes, the quorum, the update; it stops only for an unanswered selection or too few acknowledgements |
| `Client.Put` | src/client/storage_client.cpp:55-158 | on success the whole plan was walked and the store remembers exactly the given name and data for the new object; on failure no operation is left, and some request was unanswered, some chunk had too few acknowledgements, or the name was taken |
| `Client.LookUpName` | src/metadata/metadata_store.cpp:83-90 | the first lock region: the id that the name stands for in a state of this call; nothing only if unanswered or the name is not there |
| `Client.DeleteById` | src/metadata/metadata_store.cpp:73-81 | the second lock region: true exactly if this very request took that id out of the table; false only if it was unanswered or the id was gone |
| `Client.DeleteByName` | src/metadata/metadata_store.cpp:83-92 | both lock regions with anything in between: true exactly if a request of this call took an object out of the table, the one that the name stood for at the lookup |
| `Client.Delete` | src/client/storage_client.cpp:234-259 | every replica of every located chunk is asked to delete; true exactly if a request of this call took an object out of the table, the one that the name stood for in a state of this call; false only if a request was unanswered or the file was absent in a state of this call |
| `Recovery.FetchChunkFromReplica` | src/recovery/recovery_manager.cpp:36-44 | the bytes come from a named replica of the chunk, in a state of this call, and its node is not the excluded one; nothing only if every other replica was asked and did not serve it |
| `Recovery.ReadFromReplica` | src/replication/replication_manager.cpp:116-127 | one read of one replica without a checksum comparison; nothing from the excluded node |
| `Recovery.SelectNodes` | src/replication/replication_manager.cpp:49-58 | a least-used selection from the node table of a state of this call, or the chunk is skipped |
| `Recovery.WriteReplica` | src/replication/replication_manager.cpp:75-101 | the write is sent to the running node's own address or to the address in the table; the entry records the selected node |
| `Recovery.WriteReplicas` | src/replication/replication_manager.cpp:68-102 | the replica list holds exactly the acknowledging nodes in order, the first as primary, and its length is the success count |
| `Recovery.CheckQuorum` | src/replication/replication_manager.cpp:104-108 | succeeds exactly if the acknowledgements reach the factor, or more than half of it under the majority policy |
| `Recovery.ReplicateChunk` | src/replication/replication_manager.cpp:42-114 | on success between the required number and the factor of distinct nodes, all online in the state of this call that served the selection, the first the primary |
| `Replicas.SelectedAreLive` | src/metadata/metadata_store.cpp:188-204 | entries made from selected nodes all count as live under the table of the selection |
| `RepairRuns.SinceSelection` | src/replication/replication_manager.cpp:68-102 | from the selection to the update a repair's list holds acknowledged nodes of that selection only |
| `RepairRuns.RepairPublishes` | src/recovery/recovery_manager.cpp:144-164 | over every run with the flags fixed since the selection: an acknowledged repair replaces the chunk's record by one with at least the required number of distinct live nodes, the first primary; with the factor of them no order of the scan reports the chunk; an unacknowledged one changes no table |
| `RepairRuns.FullQuorumNeverLowers` | src/metadata/metadata_store.cpp:125-142 | if every selected node must acknowledge, no repair lowers the live count of the record it replaces, whatever overlaps it |
| `RepairRuns.UndisturbedNeverLowers` | src/recovery/recovery_manager.cpp:111-171 | a repair over the very record it scanned, flags fixed since the scan, does not lower it if all must acknowledge or the factor is at most 4 |
| `RepairTraces.RepairNeverLowersIff` | src/metadata/metadata_store.cpp:130-137 | with repairs free to overlap, never lowered if and only if all must acknowledge or the factor is at most 2 |
| `RepairTraces.UndisturbedNeverLowersIff` | src/replication/replication_manager.cpp:104-108 | for undisturbed repairs, if and only if all must acknowledge or the factor is at most 4 |
| `RepairTraces.SecondRepairLowers` | src/metadata/metadata_store.cpp:130-137 | for every majority configuration with factor 3 or more, a run in which the later of two overlapping repairs lowers the count |
| `RepairTraces.LoneRepairLowers` | src/replication/replication_manager.cpp:104-108 | for every majority configuration with factor 5 or more, a run in which a single undisturbed repair lowers it |
| `Recovery.RepairOneChunk` | src/recovery/recovery_manager.cpp:122-166 | a repaired chunk was fetched from a replica not excluded, and is sent under the next version with at least the required replicas; true exactly if this call sent one update |
| `Recovery.RepairChunks` | src/recovery/recovery_manager.cpp:122-166 | every scanned chunk is tried in order; the count is exactly that of the updates this call sent, each for a scanned chunk under its next version |
| `Recovery.RepairUnderReplicatedChunks` | src/recovery/recovery_manager.cpp:111-171 | fails exactly if the scan is not answered; otherwise the scan is that of a state of this call, every chunk of it is tried, and the count is that of the updates sent, each for a scanned chunk and with a sound quorum |
| `Recovery.RecoverFailedNode` | src/recovery/recovery_manager.cpp:46-109 | marks the node offline first; if it is still down at the scan, the scan holds every chunk that lists it among at most the factor of replicas; all are tried, none is fetched from it; always reports success |
| `ThreadPool.ExactlyOnce` | include/common/thread_pool.hpp:22-36 | in every interleaving, queued, running and finished tasks partition the accepted ones, each once; tasks start in order of acceptance |
| `ThreadPool.ExitedMeansDone` | src/common/thread_pool.cpp:16-40 | once all workers have exited, every task ever accepted has finished |
| `ThreadPool.NoLostWakeup` | src/common/thread_pool.cpp:28-37 | no reachable state has all workers parked with a task queued or the stop flag set, unless a notification is pending |
| `ThreadPool.OwedStepsRunOut` | src/common/thread_pool.cpp:28-40 | every step the pool owes decreases a measure |
| `ThreadPool.NeverStuck` | src/common/thread_pool.cpp:16-40 | every reachable state has an owed step enabled or is at rest with all tasks finished and, after shutdown, all workers gone |
| `ThreadPool.NoWorkersNoWork` | src/common/thread_pool.cpp:5-10 | a pool of zero workers never starts a task |
| `ThreadPool.NoWorkersLoseTasks` | src/common/thread_pool.cpp:16-26 | a concrete run in which such a pool loses a task |
| `ThreadPool.Pool.Enqueue` | include/common/thread_pool.hpp:22-36 | queues the task, or refuses exactly if stopped |
| `ThreadPool.Pool.TakeTask` | src/common/thread_pool.cpp:28-37 | the region under the mutex: park, exit or take the first task |
| `ThreadPool.Pool.FinishTask` | src/common/thread_pool.cpp:38 | what was running becomes finished and its worker looks at the queue again |
| `ThreadPool.Pool.SetStop` | src/common/thread_pool.cpp:17-22 | sets the flag and wakes everybody, or reports that it was set before |
| `ThreadPool.Pool.Join` | src/common/thread_pool.cpp:23-25 | under any schedule the workers exit, and then every accepted task has finished |
| `ThreadPool.Pool.Shutdown` | src/common/thread_pool.cpp:16-26 | the first call drains the pool; later calls change nothing |
| `Priorities.NodePriority` | src/coordinator/coordinator_service.cpp:17-22 | the wrapping fold is the big-endian value of the last eight bytes |
| `Priorities.WrappedValue` | src/coordinator/coordinator_service.cpp:17-22 | only the last eight bytes survive 64-bit wrapping |
| `Priorities.PriorityIsLexicographic` | src/coordinator/coordinator_service.cpp:18-21 | ids of one length that agree before their last eight bytes are ordered lexicographically |
| `Priorities.TieIffSamePadded` | src/coordinator/coordinator_service.cpp:17-22 | two ids tie if and only if their zero-padded last eight bytes agree |
| `ElectionService.Coordinators.StartElection` | src/coordinator/coordinator_service.cpp:44-86 | terminates under any RPC failures and ends its activation of a run of the step system; stands down exactly if some asked peer of no higher priority answered in time, and otherwise, however many requests were lost, leads, followed by all its announcements reached; in a reliable full mesh a blocked coordinator's cascade changes nothing and an unblocked one's makes it everybody's leader |
| `ElectionService.Coordinators.AskPeer` | src/coordinator/coordinator_service.cpp:48-61 | one request: a refusal only by an answer in time from a peer of no higher priority; a lost request or answer is passed over |
| `ElectionService.Coordinators.AskPeers` | src/coordinator/coordinator_service.cpp:48-62 | the peers are asked in order; true exactly if one of no higher priority answered in time; if false, all were asked; in a reliable full mesh, true exactly if some other priority is no higher |
| `ElectionService.Coordinators.RequestElection` | src/coordinator/coordinator_service.cpp:88-101 | acknowledges exactly candidates of lower priority, and then has carried an election of its own to its end; a refusal changes nothing |
| `ElectionService.Coordinators.BecomeLeader` | src/coordinator/coordinator_service.cpp:64-85 | whatever announcements are lost, exactly those reached agree on leader and generation and nobody else changes; in a reliable full mesh, everybody agrees |
| `ElectionService.Coordinators.AnnounceLeader` | src/coordinator/coordinator_service.cpp:103-114 | the peer follows the announced leader and leads only if it is itself |
| `ElectionService.Coordinators.TellPeer` | src/coordinator/coordinator_service.cpp:74-84 | one announcement, which changes the peer's fields unless it is lost |
| `ElectionService.Coordinators.ElectionTurn` | src/coordinator/coordinator_service.cpp:34-42 | a turn of the loop starts and finishes an election unless the coordinator leads; over any turns without lost requests in a full mesh at most one leads |
| `ElectionRuns.StepInv` | src/coordinator/coordinator_service.cpp:34-114 | every step of every overlapping activation keeps the election invariant |
| `ElectionRuns.LeaderIsLowest` | src/coordinator/coordinator_service.cpp:44-101 | in every reliable run a leader's priority is strictly the lowest, so there is at most one |
| `ElectionRuns.NoLeaderOnTie` | src/coordinator/coordinator_service.cpp:92-99 | if two coordinators share the lowest priority, no run ever has a leader |
| `ElectionRuns.GenerationNeverChanges` | src/coordinator/coordinator_service.cpp:64-72 | once set, leader flags and generations never change in a reliable run |
| `ElectionFaults.OneLeaderIff` | src/coordinator/coordinator_service.cpp:48-66 | with lost requests, at most one leader in all runs of a full mesh if and only if there is at most one coordinator |
| `ElectionFaults.GenerationsFixedIff` | src/coordinator/coordinator_service.cpp:64-83 | with lost requests, set generations stay in all runs if and only if there is at most one coordinator |
| `ElectionFaults.FlagsStayIff` | src/coordinator/coordinator_service.cpp:103-112 | with lost requests, set leader flags stay in all runs if and only if all coordinators have the same id |
| `Sha256.PadMessage` | src/common/checksum.cpp:28-32 | the loops terminate and build the padding of section 5.1.1 of FIPS 180-4 |
| `Sha256.AppendZeros` | src/common/checksum.cpp:31 | the loop stops after the smallest sufficient number of zero bytes |
| `Sha256.AppendLength` | src/common/checksum.cpp:32 | the loop appends the 64-bit length, most significant byte first |
| `Sha256.PadIsShortest` | src/common/checksum.cpp:31 | no shorter number of zero bytes reaches a block boundary |
| `Sha256.PadInjective` | src/common/checksum.cpp:28-32 | messages under 2^61 bytes have different paddings |
| `Sha256.ConstantsAreRoots` | src/common/checksum.cpp:11-26 | the tables are the leading fraction bits of the cube and square roots of the first primes |
| `Sha256Bits.ChBit` | src/common/checksum.cpp:51 | bit by bit, the choice takes the second word where the first has a one and the third elsewhere |
| `Sha256Bits.MajBit` | src/common/checksum.cpp:54 | bit by bit, the majority of the three words |
| `Sha256Bits.BigSigma0Bit` | src/common/checksum.cpp:53 | the exclusive or of the bits 2, 13 and 22 further up, around the word |
| `Sha256Bits.BigSigma1Bit` | src/common/checksum.cpp:50 | the exclusive or of the bits 6, 11 and 25 further up, around the word |
| `Sha256Bits.SmallSigma0Bit` | src/common/checksum.cpp:43 | the exclusive or of the bits 7 and 18 further up around the word and 3 further up |
| `Sha256Bits.SmallSigma1Bit` | src/common/checksum.cpp:44 | the exclusive or of the bits 17 and 19 further up around the word and 10 further up |
| `Sha256Bits.NoHighBits` | src/common/checksum.cpp:22 | a word has no bits above the topmost, so a shift brings in zeros |
| `KnownAnswer.DigestOfHello` | src/common/checksum.cpp:24-59 | schedule and rounds on "hello", each with its literal words, end in the known hash value |
| `KnownAnswer.ChecksumOfHello` | tests/test_checksum.cpp:10-14 | the checksum of "hello" is the text that the tests expect |
| `Sha256.PrepareSchedule` | src/common/checksum.cpp:35-46 | the array loops fill the recursive message schedule of section 6.2.2 of FIPS 180-4 |
| `Sha256.Compress` | src/common/checksum.cpp:48-58 | the 64 rounds on scalar variables are the recursive rounds |
| `Sha256.HashMessage` | src/common/checksum.cpp:24-59 | the loop over blocks computes the recursive hash value |
| `Sha256.Sha256` | src/common/checksum.cpp:24-67 | the text is the 64-digit form of the hash value |
| `Sha256.HexInjective` | src/common/checksum.cpp:61-66 | different hash values have different texts |
| `Sha256.Verify` | src/common/checksum.cpp:89-91 | verifying against a computed checksum is exactly equality of hash values |

## Left out

- Storage node request handlers: taken to be the chunk store's operations, as said above.
- gRPC channels, deadlines and message conversion: a request is a step that may fail, possibly
  after taking effect.
- Metadata persistence: `load` restores nothing, so there is no round trip to state.
- Heartbeat manager: it only sends; there is no failure detection in it. Node status changes are
  arbitrary steps of the run.
- Configuration, command line, logging, scripts and build files.
- Wall-clock times, owners, free-space estimates and `chunk_exists`/`verify_chunk`: omitted or
  arbitrary inputs; they would only add easy members.
- Id generation: ids are fresh values. Random shuffling: an arbitrary permutation.
- File names are taken to be flat: a chunk id with a path separator is not modelled.
- ChunkStore.WriteReads: requires ids and checksums of fewer than 2^32 bytes, because a longer
  string's length does not fit its field; so do the laws built on it.
- ChunkStore.ChunkStore.ReadChunkRange: requires that offset plus length stays within 64 bits.
- Planner.PlanChunks: requires a positive chunk size and at most 2^32 chunks; with chunk size zero
  the loop would not terminate.
- MetadataService.Service.DeleteByFilename: both lock regions back to back; the interleaved form is
  `MetadataRuns.DeleteByNameRemovesWhatItSaw`.
- Selection.SelectNodes: the round-robin counter is advanced under a read lock in the source; two
  selections that race on it are not modelled, and in the step system its value is arbitrary.
- Sha256.Sha256: the formatted output of a word is taken to be its eight hexadecimal digits.
- Election liveness: that the loops keep retrying every five seconds is not modelled.
