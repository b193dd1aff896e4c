/** The chunk store of one storage node (src/chunk/chunk_store.cpp): a directory of chunk files,
    an in-memory size index and a running byte total.

    A directory is a map from file names to contents. A write goes through a temporary file and a
    rename; every place where the process can stop, or the file system can refuse, is a `WriteFate`.
    The stream is closed without a check after the last write, so a file can be renamed into
    place with fewer bytes than were handed to the stream: that is `Published(reach)`. */
module ChunkStore {
  import opened Bytes
  import opened ChunkFormat

  type Directory = map<Bytes, Bytes>

  // ---- File names ----

  const CHUNK_PREFIX: Bytes := [99, 104, 117, 110, 107, 95]   // "chunk_"
  const DATA_SUFFIX: Bytes := [46, 100, 97, 116, 97]          // ".data"
  const TMP_SUFFIX: Bytes := [46, 116, 109, 112]              // ".tmp"

  function ChunkPath(id: Bytes): Bytes {
    CHUNK_PREFIX + id + DATA_SUFFIX
  }

  function TmpPath(id: Bytes): Bytes {
    ChunkPath(id) + TMP_SUFFIX
  }

  /** The names that the constructor's scan looks at. */
  predicate Scannable(name: Bytes) {
    |name| >= 10 && name[|name| - 5..] == DATA_SUFFIX
  }

  /** Chunk files are scanned, temporary files never are; and no two of these names collide. */
  lemma NamesApart(a: Bytes, b: Bytes)
    ensures Scannable(ChunkPath(a)) && !Scannable(TmpPath(a))
    ensures ChunkPath(a) == ChunkPath(b) <==> a == b
    ensures TmpPath(a) == TmpPath(b) <==> a == b
    ensures TmpPath(a) != ChunkPath(b)
  {
    var p, q := ChunkPath(a), ChunkPath(b);
    assert p[|p| - 5..] == DATA_SUFFIX && q[|q| - 5..] == DATA_SUFFIX;
    assert p[6..|p| - 5] == a && q[6..|q| - 5] == b;
    var t, u := TmpPath(a), TmpPath(b);
    assert t[|t| - 1] == 112 && q[|q| - 1] == 97;
    assert t[..|t| - 4] == p && u[..|u| - 4] == q;
    assert DATA_SUFFIX[4] == 97;
    assert t[|t| - 5..][4] == 112;
  }

  // ---- Reading ----

  function Read(hash: Hash, files: Directory, id: Bytes): Option<(Header, Bytes)> {
    if ChunkPath(id) in files then Deserialize(hash, files[ChunkPath(id)]) else None
  }

  // ---- Writing ----

  /** What happens to one `write_chunk` call after its checks have passed. */
  datatype WriteFate =
    | OpenFailed                 // the temporary file cannot be opened
    | WriteFailed                // the stream reports an error; the temporary file is removed
    | CrashWriting(k: nat)       // the process stops with k bytes in the temporary file
    | RenameFailed               // the rename is refused; the temporary file is removed
    | Published(reach: nat)      // renamed into place, with `reach` bytes on disk

  /** The caller's claims about the payload, checked before anything is written. */
  predicate Accepts(hash: Hash, h: Header, payload: Bytes) {
    |payload| == h.size && (h.checksum == [] || hash(payload) == h.checksum)
  }

  /** The header that is stored: an absent checksum or creation time is filled in. */
  function Stored(hash: Hash, h: Header, payload: Bytes, now: nat): Header {
    h.(checksum := if h.checksum == [] then hash(payload) else h.checksum,
       createdAt := if h.createdAt == 0 then now else h.createdAt)
  }

  function Image(hash: Hash, h: Header, payload: Bytes, now: nat): Bytes {
    Serialize(Stored(hash, h, payload, now), payload)
  }

  function Prefix(data: Bytes, n: nat): Bytes {
    if n <= |data| then data[..n] else data
  }

  /** The directory after an attempt to put `data` into the file of chunk `id`. */
  function PublishFiles(files: Directory, id: Bytes, data: Bytes, fate: WriteFate): Directory {
    match fate
    case OpenFailed => files
    case WriteFailed => files - {TmpPath(id)}
    case CrashWriting(k) => files[TmpPath(id) := Prefix(data, k)]
    case RenameFailed => files - {TmpPath(id)}
    case Published(reach) => (files - {TmpPath(id)})[ChunkPath(id) := Prefix(data, reach)]
  }

  /** The directory after a write attempt. */
  function WriteFiles(hash: Hash, files: Directory, h: Header, payload: Bytes, now: nat,
                      fate: WriteFate): Directory
  {
    if !Accepts(hash, h, payload) then files
    else PublishFiles(files, h.chunkId, Image(hash, h, payload, now), fate)
  }

  /** The values whose stored form parses back: widths fit and the hash fits its length field. */
  predicate Storable(hash: Hash, h: Header, payload: Bytes, now: nat) {
    FieldsFit(Stored(hash, h, payload, now))
  }

  /** A complete image reads back as what was stored; a shorter one reads back as nothing. */
  lemma ImageReads(hash: Hash, h: Header, payload: Bytes, now: nat, n: nat)
    requires Accepts(hash, h, payload) && Storable(hash, h, payload, now)
    ensures Deserialize(hash, Prefix(Image(hash, h, payload, now), n)) ==
            if n >= |Image(hash, h, payload, now)|
            then Some((Stored(hash, h, payload, now), payload)) else None
  {
    PrefixReads(hash, Stored(hash, h, payload, now), payload, n);
  }

  lemma PrefixReads(hash: Hash, st: Header, payload: Bytes, n: nat)
    requires WellFormed(hash, st, payload)
    ensures Deserialize(hash, Prefix(Serialize(st, payload), n)) ==
            if n >= |Serialize(st, payload)| then Some((st, payload)) else None
  {
    RoundTrip(hash, st, payload);
    if n < |Serialize(st, payload)| {
      TruncationRejected(hash, st, payload, n);
    } else if n == |Serialize(st, payload)| {
      assert Prefix(Serialize(st, payload), n) == Serialize(st, payload);
    }
  }

  /** What the chunk being written reads as after any fate: its old value, its new value, or
      (only when fewer bytes reached the disk than were written) nothing. */
  function ReadAfterWrite(hash: Hash, files: Directory, h: Header, payload: Bytes, now: nat,
                          fate: WriteFate): Option<(Header, Bytes)>
  {
    if |payload| == h.size && (h.checksum == [] || h.checksum == hash(payload)) && fate.Published?
    then
      var stored := Header(h.chunkId, h.objectId, h.version, h.size, hash(payload),
                           if h.createdAt == 0 then now else h.createdAt);
      if fate.reach >= |Serialize(stored, payload)| then Some((stored, payload)) else None
    else Read(hash, files, h.chunkId)
  }

  /** A write attempt, wherever it stops, affects at most the chunk it names. */
  lemma WriteReads(hash: Hash, files: Directory, h: Header, payload: Bytes, now: nat,
                   fate: WriteFate, id: Bytes)
    requires Storable(hash, h, payload, now)
    ensures Read(hash, WriteFiles(hash, files, h, payload, now, fate), id) ==
            if id == h.chunkId then ReadAfterWrite(hash, files, h, payload, now, fate)
            else Read(hash, files, id)
  {
    hide Deserialize, Image, Storable, ChunkPath, TmpPath, Scannable;
    NamesApart(id, h.chunkId);
    NamesApart(h.chunkId, id);
    if Accepts(hash, h, payload) {
      match fate
      case OpenFailed =>
      case WriteFailed =>
      case CrashWriting(k) =>
      case RenameFailed =>
      case Published(reach) =>
        ImageReads(hash, h, payload, now, reach);
        StoredFields(hash, h, payload, now);
    }
  }

  /** What is stored of the caller's header, field by field. */
  lemma StoredFields(hash: Hash, h: Header, payload: Bytes, now: nat)
    requires Accepts(hash, h, payload)
    ensures |payload| == h.size && (h.checksum == [] || h.checksum == hash(payload))
    ensures Stored(hash, h, payload, now) ==
            Header(h.chunkId, h.objectId, h.version, h.size, hash(payload),
                   if h.createdAt == 0 then now else h.createdAt)
    ensures Image(hash, h, payload, now) == Serialize(Stored(hash, h, payload, now), payload)
  {
  }

  /** The payload that a write leaves behind, and what a failed one leaves. */
  lemma AfterWrite(hash: Hash, files: Directory, h: Header, payload: Bytes, now: nat,
                   fate: WriteFate)
    ensures var r := ReadAfterWrite(hash, files, h, payload, now, fate);
            if !(Accepts(hash, h, payload) && fate.Published?) then r == Read(hash, files, h.chunkId)
            else if fate.reach >= |Image(hash, h, payload, now)| then r.Some? && r.value.1 == payload
            else r == None
  {
    hide Read, Serialize;
    if Accepts(hash, h, payload) {
      StoredFields(hash, h, payload, now);
    }
  }

  // ---- Deleting ----

  /** `RemoveFailed` covers both a refused removal and a crash before it. */
  datatype DeleteFate = Removed | RemoveFailed

  function DeleteFiles(files: Directory, id: Bytes, fate: DeleteFate): Directory {
    if fate.Removed? then files - {ChunkPath(id)} else files
  }

  lemma DeleteReads(hash: Hash, files: Directory, id: Bytes, fate: DeleteFate, other: Bytes)
    ensures Read(hash, DeleteFiles(files, id, fate), other) ==
            if other == id && fate.Removed? then None else Read(hash, files, other)
  {
    NamesApart(id, other);
  }

  // ---- The size index and the total ----

  type Sizes = map<Bytes, nat>

  ghost function Sum(m: Sizes): nat {
    if m == map[] then 0 else
    var k :| k in m; m[k] + Sum(m - {k})
  }

  lemma {:induction false} SumRemove(m: Sizes, k: Bytes)
    requires k in m
    ensures Sum(m) == m[k] + Sum(m - {k})
    decreases |m|
  {
    var j :| j in m && Sum(m) == m[j] + Sum(m - {j});
    if j != k {
      SumRemove(m - {j}, k);
      SumRemove(m - {k}, j);
      assert m - {j} - {k} == m - {k} - {j};
    }
  }

  lemma SumSet(m: Sizes, k: Bytes, v: nat)
    ensures Sum(m[k := v]) == v + Sum(m - {k})
  {
    SumRemove(m[k := v], k);
    assert m[k := v] - {k} == m - {k};
  }

  /** Every scannable file that parses is named for the chunk id in its own header. */
  ghost predicate Named(hash: Hash, files: Directory) {
    forall name :: name in files && Scannable(name) && Deserialize(hash, files[name]).Some? ==>
      name == ChunkPath(Deserialize(hash, files[name]).value.0.chunkId)
  }

  /** The readable chunks of a directory and their payload sizes. */
  ghost function Index(hash: Hash, files: Directory): Sizes {
    map id | id in ReadableIds(hash, files) :: Read(hash, files, id).value.0.size
  }

  ghost function ReadableIds(hash: Hash, files: Directory): set<Bytes> {
    set id | id in (set name | name in files :: Middle(name)) && Read(hash, files, id).Some?
  }

  function Middle(name: Bytes): Bytes {
    if |name| >= 11 then name[6..|name| - 5] else []
  }

  lemma IndexMember(hash: Hash, files: Directory, id: Bytes)
    ensures id in Index(hash, files) <==> Read(hash, files, id).Some?
    ensures id in Index(hash, files) ==>
              Index(hash, files)[id] == Read(hash, files, id).value.0.size
  {
    if Read(hash, files, id).Some? {
      assert Middle(ChunkPath(id)) == id;
    }
  }

  /** The state of a store: what is on disk, and what is in memory. */
  datatype Store = Store(files: Directory, sizes: Sizes, total: nat)

  /** The in-memory index and total are exactly those of the directory. */
  ghost predicate Agrees(hash: Hash, s: Store) {
    s.sizes == Index(hash, s.files) && s.total == Sum(s.sizes) % U64_LIMIT
  }

  function Wrap64(x: int): nat {
    x % U64_LIMIT
  }

  function SetSize(sizes: Sizes, total: nat, id: Bytes, size: nat): (Sizes, nat) {
    var base := if id in sizes then Wrap64(total - sizes[id]) else total;
    (sizes[id := size], Wrap64(base + size))
  }

  function DropSize(sizes: Sizes, total: nat, id: Bytes): (Sizes, nat) {
    if id in sizes then (sizes - {id}, Wrap64(total - sizes[id])) else (sizes, total)
  }

  lemma ModSub(a: int, b: int)
    ensures Wrap64(Wrap64(a) - b) == Wrap64(a - b)
    ensures Wrap64(Wrap64(a) + b) == Wrap64(a + b)
  {
    var q := a / U64_LIMIT;
    assert a == q * U64_LIMIT + Wrap64(a);
    ShiftMod(Wrap64(a) - b, q);
    ShiftMod(Wrap64(a) + b, q);
  }

  lemma ShiftMod(x: int, q: int)
    ensures (x + q * U64_LIMIT) % U64_LIMIT == x % U64_LIMIT
  {
    QuotientUnique(x + q * U64_LIMIT, U64_LIMIT, x / U64_LIMIT + q, x % U64_LIMIT);
  }

  lemma SetSizeTotal(sizes: Sizes, total: nat, id: Bytes, size: nat)
    requires total == Sum(sizes) % U64_LIMIT
    ensures SetSize(sizes, total, id, size).1 == Sum(sizes[id := size]) % U64_LIMIT
  {
    SumSet(sizes, id, size);
    if id in sizes {
      SumRemove(sizes, id);
      ModSub(Sum(sizes), sizes[id]);
      ModSub(Sum(sizes) - sizes[id], size);
    } else {
      assert sizes - {id} == sizes;
      ModSub(Sum(sizes), size);
    }
  }

  lemma DropSizeTotal(sizes: Sizes, total: nat, id: Bytes)
    requires total == Sum(sizes) % U64_LIMIT
    ensures DropSize(sizes, total, id).1 == Sum(sizes - {id}) % U64_LIMIT
    ensures DropSize(sizes, total, id).0 == sizes - {id}
  {
    if id in sizes {
      SumRemove(sizes, id);
      ModSub(Sum(sizes), sizes[id]);
    } else {
      assert sizes - {id} == sizes;
    }
  }

  // ---- Operations on a store ----

  ghost function Open(hash: Hash, files: Directory): Store {
    Store(files, Index(hash, files), Sum(Index(hash, files)) % U64_LIMIT)
  }

  ghost function Write(hash: Hash, s: Store, h: Header, payload: Bytes, now: nat, fate: WriteFate)
    : (r: (Store, bool))
  {
    var files := WriteFiles(hash, s.files, h, payload, now, fate);
    if Accepts(hash, h, payload) && fate.Published? then
      var (sizes, total) := SetSize(s.sizes, s.total, h.chunkId, h.size);
      (Store(files, sizes, total), true)
    else
      (s.(files := files), false)
  }

  /** The answer of a write, and what its chunk reads as after a successful one. */
  lemma WriteMeans(hash: Hash, s: Store, h: Header, payload: Bytes, now: nat, fate: WriteFate)
    requires IntsFit(h) && now < U64_LIMIT
    ensures var (s', ok) := Write(hash, s, h, payload, now, fate);
            && (ok <==> |payload| == h.size && (h.checksum == [] || hash(payload) == h.checksum) &&
                        fate.Published?)
            && (|payload| != h.size || (h.checksum != [] && hash(payload) != h.checksum) ==> s' == s)
            && (ok && |h.chunkId| < U32_LIMIT && |h.objectId| < U32_LIMIT &&
                |hash(payload)| < U32_LIMIT ==>
                  var stored := Header(h.chunkId, h.objectId, h.version, |payload|, hash(payload),
                                       if h.createdAt == 0 then now else h.createdAt);
                  Read(hash, s'.files, h.chunkId) ==
                  if fate.reach >= |Serialize(stored, payload)| then Some((stored, payload))
                  else None)
  {
    hide Read, PublishFiles, Wrap64, EncodeHeader;
    if |h.chunkId| < U32_LIMIT && |h.objectId| < U32_LIMIT && |hash(payload)| < U32_LIMIT &&
       Accepts(hash, h, payload) && fate.Published?
    {
      assert Storable(hash, h, payload, now);
      WriteReads(hash, s.files, h, payload, now, fate, h.chunkId);
    }
  }

  /** The size entry is dropped before the file is removed. */
  ghost function Delete(s: Store, id: Bytes, fate: DeleteFate): (Store, bool) {
    if ChunkPath(id) !in s.files then (s, false) else
    var (sizes, total) := DropSize(s.sizes, s.total, id);
    (Store(DeleteFiles(s.files, id, fate), sizes, total), fate.Removed?)
  }

  /** A map that records exactly the readable chunks is the index. */
  lemma IndexIs(hash: Hash, files: Directory, m: Sizes)
    requires forall id :: id in m <==> Read(hash, files, id).Some?
    requires forall id :: id in m ==> m[id] == Read(hash, files, id).value.0.size
    ensures Index(hash, files) == m
  {
    hide Deserialize;
    forall id
      ensures id in Index(hash, files) <==> id in m
      ensures id in m ==> Index(hash, files)[id] == m[id]
    {
      IndexMember(hash, files, id);
    }
  }

  /** Changing what one chunk reads as changes only its entry in the index. */
  lemma IndexChange(hash: Hash, files: Directory, files': Directory, c: Bytes)
    requires forall id :: id != c ==> Read(hash, files', id) == Read(hash, files, id)
    ensures var r := Read(hash, files', c);
            Index(hash, files') == if r.Some? then Index(hash, files)[c := r.value.0.size]
                                   else Index(hash, files) - {c}
  {
    hide Read, Index;
    var r := Read(hash, files', c);
    var m := if r.Some? then Index(hash, files)[c := r.value.0.size] else Index(hash, files) - {c};
    forall id
      ensures id in m <==> Read(hash, files', id).Some?
      ensures id in m ==> m[id] == Read(hash, files', id).value.0.size
    {
      IndexMember(hash, files, id);
    }
    IndexIs(hash, files', m);
  }

  lemma IndexAfterWrite(hash: Hash, files: Directory, h: Header, payload: Bytes, now: nat,
                        fate: WriteFate)
    requires Storable(hash, h, payload, now)
    ensures var files' := WriteFiles(hash, files, h, payload, now, fate);
            var r := ReadAfterWrite(hash, files, h, payload, now, fate);
            Index(hash, files') ==
            if r.Some? then Index(hash, files)[h.chunkId := r.value.0.size]
            else Index(hash, files) - {h.chunkId}
  {
    hide Read, Index, WriteFiles, ReadAfterWrite, Storable;
    var files' := WriteFiles(hash, files, h, payload, now, fate);
    forall id
      ensures Read(hash, files', id) ==
              if id == h.chunkId then ReadAfterWrite(hash, files, h, payload, now, fate)
              else Read(hash, files, id)
    {
      WriteReads(hash, files, h, payload, now, fate, id);
    }
    IndexChange(hash, files, files', h.chunkId);
  }

  lemma IndexAfterDelete(hash: Hash, files: Directory, id: Bytes)
    ensures Index(hash, DeleteFiles(files, id, Removed)) == Index(hash, files) - {id}
  {
    hide Read, Index, DeleteFiles;
    var files' := DeleteFiles(files, id, Removed);
    forall other
      ensures Read(hash, files', other) == if other == id then None else Read(hash, files, other)
    {
      DeleteReads(hash, files, id, Removed, other);
    }
    IndexChange(hash, files, files', id);
  }

  /** A write keeps index, total and directory in agreement exactly when it does not publish a
      short file. */
  lemma WriteAgrees(hash: Hash, s: Store, h: Header, payload: Bytes, now: nat, fate: WriteFate)
    requires Agrees(hash, s) && Storable(hash, h, payload, now)
    ensures Agrees(hash, Write(hash, s, h, payload, now, fate).0)
            <==> !(Accepts(hash, h, payload) && fate.Published? &&
                   fate.reach < |Image(hash, h, payload, now)|)
  {
    hide Deserialize;
    IndexAfterWrite(hash, s.files, h, payload, now, fate);
    if Accepts(hash, h, payload) && fate.Published? {
      SetSizeTotal(s.sizes, s.total, h.chunkId, h.size);
    } else {
      IndexMember(hash, s.files, h.chunkId);
      var r := Read(hash, s.files, h.chunkId);
      assert Index(hash, Write(hash, s, h, payload, now, fate).0.files) == s.sizes;
    }
  }

  /** A delete keeps the agreement exactly when the file goes away or held no readable chunk. */
  lemma DeleteAgrees(hash: Hash, s: Store, id: Bytes, fate: DeleteFate)
    requires Agrees(hash, s)
    ensures Agrees(hash, Delete(s, id, fate).0)
            <==> (fate.Removed? || Read(hash, s.files, id).None?)
  {
    IndexAfterDelete(hash, s.files, id);
    IndexMember(hash, s.files, id);
    if ChunkPath(id) in s.files {
      DropSizeTotal(s.sizes, s.total, id);
      if fate.RemoveFailed? && Read(hash, s.files, id).None? {
        assert s.sizes - {id} == s.sizes;
      }
    }
  }

  // ---- Runs: any sequence of writes, deletes and crashes ----

  datatype Event =
    | WriteEvent(h: Header, payload: Bytes, now: nat, wfate: WriteFate)
    | DeleteEvent(id: Bytes, dfate: DeleteFate)
    | Crash

  /** A crash, in the middle of a write or anywhere else, loses the memory and reopens the
      directory. */
  ghost function Step(hash: Hash, s: Store, e: Event): Store {
    match e
    case WriteEvent(h, payload, now, fate) =>
      var s' := Write(hash, s, h, payload, now, fate).0;
      if fate.CrashWriting? then Open(hash, s'.files) else s'
    case DeleteEvent(id, fate) => Delete(s, id, fate).0
    case Crash => Open(hash, s.files)
  }

  ghost predicate EventOk(hash: Hash, e: Event) {
    e.WriteEvent? ==> Storable(hash, e.h, e.payload, e.now)
  }

  /** The two file-system faults that the code does not notice or does not undo. */
  ghost predicate Faultless(hash: Hash, s: Store, e: Event) {
    && (e.WriteEvent? && Accepts(hash, e.h, e.payload) && e.wfate.Published? ==>
          e.wfate.reach >= |Image(hash, e.h, e.payload, e.now)|)
    && (e.DeleteEvent? ==> e.dfate.Removed? || Read(hash, s.files, e.id).None?)
  }

  ghost predicate RunOf(hash: Hash, events: seq<Event>, states: seq<Store>) {
    && |states| == |events| + 1
    && states[0] == Open(hash, map[])
    && forall i :: 0 <= i < |events| ==>
         EventOk(hash, events[i]) && states[i + 1] == Step(hash, states[i], events[i])
  }

  lemma OpenAgrees(hash: Hash, files: Directory)
    ensures Agrees(hash, Open(hash, files))
  {
  }

  /** The process starts again after this event. */
  predicate Restarts(e: Event) {
    e.Crash? || (e.WriteEvent? && e.wfate.CrashWriting?)
  }

  /** If those faults did not occur since the last restart, however many there were before it, the
      live index and total are those that a restart would rebuild from the directory. */
  lemma {:induction false} RunAgrees(hash: Hash, events: seq<Event>, states: seq<Store>,
                                     restart: nat, n: nat)
    requires RunOf(hash, events, states) && restart <= n < |states|
    requires restart == 0 || Restarts(events[restart - 1])
    requires forall i :: restart <= i < n ==> Faultless(hash, states[i], events[i])
    ensures Agrees(hash, states[n])
    ensures states[n] == Open(hash, states[n].files)
  {
    if n > 0 {
      var s, e := states[n - 1], events[n - 1];
      assert EventOk(hash, e) && states[n] == Step(hash, s, e);
      if n == restart {
        hide Write;
        OpenAgrees(hash, states[n].files);
      } else {
        RunAgrees(hash, events, states, restart, n - 1);
        assert Faultless(hash, s, e);
        match e
        case WriteEvent(h, payload, now, fate) => WriteAgrees(hash, s, h, payload, now, fate);
        case DeleteEvent(id, fate) => DeleteAgrees(hash, s, id, fate);
        case Crash =>
      }
    }
  }

  /** The event handed this payload to `write_chunk` under `id`, with its true size and with its true
      checksum or none; and the header reads as the caller's, with the checksum and the creation
      time filled in. */
  ghost predicate WriteOf(hash: Hash, e: Event, id: Bytes, h: Header, payload: Bytes) {
    && e.WriteEvent? && e.h.chunkId == id && payload == e.payload
    && |payload| == e.h.size
    && (e.h.checksum != [] ==> e.h.checksum == hash(payload))
    && h.chunkId == id && h.objectId == e.h.objectId
    && h.version == e.h.version && h.size == e.h.size
    && h.checksum == hash(payload)
    && h.createdAt == if e.h.createdAt == 0 then e.now else e.h.createdAt
  }

  /** One event leaves every other chunk as it was; the chunk it names becomes its old value, the
      value written, or nothing, and nothing only by a delete or a short file. */
  lemma StepReads(hash: Hash, s: Store, e: Event, id: Bytes)
    requires EventOk(hash, e)
    ensures var r, r' := Read(hash, s.files, id), Read(hash, Step(hash, s, e).files, id);
            || r' == r
            || (r'.Some? && WriteOf(hash, e, id, r'.value.0, r'.value.1))
            || (r' == None && e.DeleteEvent? && e.id == id)
            || (r' == None && e.WriteEvent? && e.h.chunkId == id && !Faultless(hash, s, e))
  {
    match e
    case WriteEvent(h, payload, now, fate) => WriteReads(hash, s.files, h, payload, now, fate, id);
    case DeleteEvent(did, fate) => DeleteReads(hash, s.files, did, fate, id);
    case Crash =>
  }

  /** In every run, with any faults and crashes, whatever reads back under an id was written
      under that id: a store can lose a chunk but never serves wrong data. */
  lemma {:induction false} RunReads(hash: Hash, events: seq<Event>, states: seq<Store>, n: nat,
                                    id: Bytes)
    requires RunOf(hash, events, states) && n < |states|
    requires Read(hash, states[n].files, id).Some?
    ensures var (h, payload) := Read(hash, states[n].files, id).value;
            exists i :: 0 <= i < n && WriteOf(hash, events[i], id, h, payload)
  {
    hide Deserialize;
    if n > 0 {
      var s, e := states[n - 1], events[n - 1];
      assert EventOk(hash, e) && states[n] == Step(hash, s, e);
      StepReads(hash, s, e, id);
      if Read(hash, states[n].files, id) == Read(hash, s.files, id) {
        RunReads(hash, events, states, n - 1, id);
      } else {
        var (h, payload) := Read(hash, states[n].files, id).value;
        assert WriteOf(hash, events[n - 1], id, h, payload);
      }
    }
  }

  lemma WriteNamed(hash: Hash, files: Directory, h: Header, payload: Bytes, now: nat,
                   fate: WriteFate)
    requires Storable(hash, h, payload, now) && Named(hash, files)
    ensures Named(hash, WriteFiles(hash, files, h, payload, now, fate))
  {
    hide Deserialize, Image, Storable, ChunkPath, TmpPath, Scannable;
    NamesApart(h.chunkId, h.chunkId);
    if Accepts(hash, h, payload) {
      ImageReads(hash, h, payload, now, if fate.Published? then fate.reach else 0);
    }
  }

  /** Reachable directories keep file names and headers in step, so a restart can trust them. */
  lemma {:induction false} RunNamed(hash: Hash, events: seq<Event>, states: seq<Store>, n: nat)
    requires RunOf(hash, events, states) && n < |states|
    ensures Named(hash, states[n].files)
  {
    hide Deserialize, WriteFiles, Image, Storable, Accepts, SetSize, DropSize;
    if n > 0 {
      RunNamed(hash, events, states, n - 1);
      var s, e := states[n - 1], events[n - 1];
      assert EventOk(hash, e) && states[n] == Step(hash, s, e);
      if e.WriteEvent? {
        WriteNamed(hash, s.files, e.h, e.payload, e.now, e.wfate);
      }
    }
  }

  // ---- The code ----

  /** The sizes that the scan adds up: one per scannable file that parses. */
  ghost function ScanSizes(hash: Hash, files: Directory): Sizes {
    map name | name in files && Scannable(name) && Deserialize(hash, files[name]).Some? ::
      Deserialize(hash, files[name]).value.0.size
  }

  lemma ScanStep(hash: Hash, seen: Directory, name: Bytes, content: Bytes)
    requires name !in seen
    requires Named(hash, seen[name := content])
    ensures Named(hash, seen)
    ensures var r := Deserialize(hash, content);
            if Scannable(name) && r.Some? then
              && r.value.0.chunkId !in Index(hash, seen)
              && Index(hash, seen[name := content]) ==
                 Index(hash, seen)[r.value.0.chunkId := r.value.0.size]
            else
              Index(hash, seen[name := content]) == Index(hash, seen)
  {
    hide Deserialize, Index, Scannable, ChunkPath;
    var all := seen[name := content];
    var r := Deserialize(hash, content);
    forall n | n in seen && Scannable(n) && Deserialize(hash, seen[n]).Some?
      ensures n == ChunkPath(Deserialize(hash, seen[n]).value.0.chunkId)
    {
      assert n in all && all[n] == seen[n];
    }
    if Scannable(name) && r.Some? {
      assert name in all && all[name] == content;
      var c := r.value.0.chunkId;
      forall id | id != c ensures Read(hash, all, id) == Read(hash, seen, id) {
        NamesApart(id, c);
      }
      IndexChange(hash, seen, all, c);
      IndexMember(hash, seen, c);
    } else {
      forall id
        ensures Read(hash, all, id).Some? ==> Read(hash, all, id) == Read(hash, seen, id)
        ensures Read(hash, seen, id).Some? ==> Read(hash, all, id) == Read(hash, seen, id)
      {
        NamesApart(id, id);
      }
      forall id
        ensures id in Index(hash, seen) <==> Read(hash, all, id).Some?
        ensures id in Index(hash, seen) ==>
                  Index(hash, seen)[id] == Read(hash, all, id).value.0.size
      {
        IndexMember(hash, seen, id);
      }
      IndexIs(hash, all, Index(hash, seen));
    }
  }

  lemma NamedPart(hash: Hash, files: Directory, todo: set<Bytes>)
    requires Named(hash, files)
    ensures Named(hash, files - todo)
  {
    hide Deserialize, Scannable, ChunkPath;
  }

  /** The total after one more file has been looked at. */
  lemma ScanTotal(hash: Hash, seen: Directory, name: Bytes, content: Bytes)
    requires name !in seen
    ensures var r := Deserialize(hash, content);
            Sum(ScanSizes(hash, seen[name := content])) ==
            Sum(ScanSizes(hash, seen)) +
            if Scannable(name) && r.Some? then r.value.0.size else 0
  {
    hide Deserialize, Scannable;
    var all := seen[name := content];
    var r := Deserialize(hash, content);
    var before := ScanSizes(hash, seen);
    if Scannable(name) && r.Some? {
      assert ScanSizes(hash, all) == before[name := r.value.0.size];
      SumSet(before, name, r.value.0.size);
      assert before - {name} == before;
    } else {
      assert ScanSizes(hash, all) == before;
    }
  }

  /** The scan's loop invariant: what has been recorded when the names in `todo` are left. */
  ghost predicate Scanned(hash: Hash, files: Directory, todo: set<Bytes>, sizes: Sizes, total: nat) {
    && (Named(hash, files) ==>
          && sizes == Index(hash, files - todo)
          && total == Sum(sizes) % U64_LIMIT)
    && total == Sum(ScanSizes(hash, files - todo)) % U64_LIMIT
  }

  /** What one directory entry adds to the index and the total. */
  function ScanEntry(hash: Hash, name: Bytes, content: Bytes, sizes: Sizes, total: nat)
    : (Sizes, nat)
  {
    var r := Deserialize(hash, content);
    if Scannable(name) && r.Some? then
      (sizes[r.value.0.chunkId := r.value.0.size], Wrap64(total + r.value.0.size))
    else
      (sizes, total)
  }

  lemma ScanBegins(hash: Hash, files: Directory)
    ensures Scanned(hash, files, files.Keys, map[], 0)
  {
    hide Deserialize, Scannable;
    assert files - files.Keys == map[];
    assert Index(hash, map[]) == map[];
    assert ScanSizes(hash, map[]) == map[];
  }

  lemma ScanContinues(hash: Hash, files: Directory, todo: set<Bytes>, name: Bytes, sizes: Sizes,
                      total: nat)
    requires name in todo && todo <= files.Keys
    requires Scanned(hash, files, todo, sizes, total)
    ensures var (sizes', total') := ScanEntry(hash, name, files[name], sizes, total);
            Scanned(hash, files, todo - {name}, sizes', total')
  {
    hide Deserialize, Scannable, Named, Index, ScanSizes, Sum;
    var seen := files - todo;
    var r := Deserialize(hash, files[name]);
    assert files - (todo - {name}) == seen[name := files[name]];
    ScanTotal(hash, seen, name, files[name]);
    if Scannable(name) && r.Some? {
      ModSub(Sum(ScanSizes(hash, seen)), r.value.0.size);
    }
    if Named(hash, files) {
      NamedPart(hash, files, todo - {name});
      ScanStep(hash, seen, name, files[name]);
      if Scannable(name) && r.Some? {
        SetSizeTotal(sizes, total, r.value.0.chunkId, r.value.0.size);
      }
    }
  }

  lemma ScanEnds(hash: Hash, files: Directory, sizes: Sizes, total: nat)
    requires Scanned(hash, files, {}, sizes, total)
    ensures Named(hash, files) ==> Store(files, sizes, total) == Open(hash, files)
    ensures total == Sum(ScanSizes(hash, files)) % U64_LIMIT
  {
    assert files - {} == files;
  }

  /** The constructor's loop, which visits the directory in any order. */
  method ScanDirectory(hash: Hash, files: Directory) returns (chunkSizes: Sizes, totalStored: nat)
    ensures Scanned(hash, files, {}, chunkSizes, totalStored)
  {
    hide Deserialize, Scannable, Scanned;
    chunkSizes, totalStored := map[], 0;
    ScanBegins(hash, files);
    var todo := files.Keys;
    while todo != {}
      invariant todo <= files.Keys
      invariant Scanned(hash, files, todo, chunkSizes, totalStored)
    {
      var name :| name in todo;
      ScanContinues(hash, files, todo, name, chunkSizes, totalStored);
      todo := todo - {name};
      if Scannable(name) {
        var parsed := DeserializeBuffer(hash, files[name]);
        if parsed.Some? {
          var h := parsed.value.0;
          chunkSizes := chunkSizes[h.chunkId := h.size];
          totalStored := Wrap64(totalStored + h.size);
        }
      }
    }
  }

  class ChunkStore {
    const hash: Hash
    var files: Directory
    var chunkSizes: Sizes
    var totalStored: nat

    ghost function State(): Store
      reads this
    {
      Store(files, chunkSizes, totalStored)
    }

    /** Reopening a directory whose files are named for their chunks rebuilds exactly the index
        and total of that directory. */
    constructor (hash: Hash, files: Directory)
      ensures this.hash == hash && this.files == files
      ensures Named(hash, files) ==> State() == Open(hash, files)
      ensures totalStored == Sum(ScanSizes(hash, files)) % U64_LIMIT
    {
      this.hash := hash;
      this.files := files;
      var sizes, total := ScanDirectory(hash, files);
      chunkSizes, totalStored := sizes, total;
      ScanEnds(hash, files, sizes, total);
    }

    /** Temporary file, then rename. A crash while writing is modelled as a return in mid-call. */
    method PublishFile(id: Bytes, data: Bytes, fate: WriteFate) returns (ok: bool)
      modifies this`files
      ensures files == PublishFiles(old(files), id, data, fate)
      ensures ok == fate.Published?
    {
      var path := ChunkPath(id);
      var tmp := path + TMP_SUFFIX;
      hide ChunkPath;
      if fate.OpenFailed? {
        return false;
      }
      if fate.CrashWriting? {
        files := files[tmp := Prefix(data, fate.k)];
        return false;
      }
      files := files[tmp := data];
      if fate.WriteFailed? || fate.RenameFailed? {
        files := files - {tmp};
        assert files == old(files) - {tmp};
        return false;
      }
      files := files[tmp := Prefix(data, fate.reach)];
      files := (files - {tmp})[path := files[tmp]];
      assert files == (old(files) - {tmp})[path := Prefix(data, fate.reach)];
      return true;
    }

    /** A payload of the wrong size, or of another checksum than the one given, is refused and
        changes nothing. A write that reaches the disk in full reads back as what the caller gave,
        with the checksum and the creation time filled in. */
    method WriteChunk(h: Header, payload: Bytes, now: nat, fate: WriteFate) returns (ok: bool)
      requires IntsFit(h) && now < U64_LIMIT
      modifies this
      ensures (State(), ok) == Write(hash, old(State()), h, payload, now, fate)
      ensures ok <==> |payload| == h.size && (h.checksum == [] || hash(payload) == h.checksum) &&
                      fate.Published?
      ensures |payload| != h.size || (h.checksum != [] && hash(payload) != h.checksum) ==>
                files == old(files) && chunkSizes == old(chunkSizes) &&
                totalStored == old(totalStored)
      ensures !ok ==> chunkSizes == old(chunkSizes) && totalStored == old(totalStored)
      ensures ok ==> chunkSizes == old(chunkSizes)[h.chunkId := |payload|]
      ensures ok && |h.chunkId| < U32_LIMIT && |h.objectId| < U32_LIMIT &&
              |hash(payload)| < U32_LIMIT ==>
                var stored := Header(h.chunkId, h.objectId, h.version, |payload|, hash(payload),
                                     if h.createdAt == 0 then now else h.createdAt);
                Read(hash, files, h.chunkId) ==
                if fate.reach >= |Serialize(stored, payload)| then Some((stored, payload)) else None
    {
      hide EncodeHeader, HeaderSize, PublishFiles, Wrap64, Read;
      WriteMeans(hash, State(), h, payload, now, fate);
      if |payload| != h.size {
        return false;
      }
      var checksum := hash(payload);
      if h.checksum != [] && checksum != h.checksum {
        return false;
      }
      var hdr := h;
      if hdr.checksum == [] { hdr := hdr.(checksum := checksum); }
      if hdr.createdAt == 0 { hdr := hdr.(createdAt := now); }
      var data := HeaderOnlyBytes(hdr);
      data := data + payload;
      assert data == Image(hash, h, payload, now);
      var published := PublishFile(h.chunkId, data, fate);
      if !published {
        return false;
      }
      if h.chunkId in chunkSizes {
        totalStored := Wrap64(totalStored - chunkSizes[h.chunkId]);
      }
      chunkSizes := chunkSizes[h.chunkId := h.size];
      totalStored := Wrap64(totalStored + h.size);
      return true;
    }

    method ReadChunk(id: Bytes) returns (r: Option<(Header, Bytes)>)
      ensures r == Read(hash, files, id)
    {
      var path := ChunkPath(id);
      if path !in files {
        return None;
      }
      r := DeserializeBuffer(hash, files[path]);
    }

    /** The bytes of the payload whose positions lie in `[offset, offset + length)`. */
    method ReadChunkRange(id: Bytes, offset: nat, length: nat) returns (r: Option<Bytes>)
      requires offset + length < U64_LIMIT
      ensures r.None? <==> Read(hash, files, id).None?
      ensures r.Some? ==>
                var payload := Read(hash, files, id).value.1;
                && |r.value| <= length
                && (forall k :: 0 <= k < |r.value| ==>
                      offset + k < |payload| && r.value[k] == payload[offset + k])
                && (|r.value| < length ==> offset + |r.value| >= |payload|)
    {
      var result := ReadChunk(id);
      if result.None? {
        return None;
      }
      var payload := result.value.1;
      if offset >= |payload| {
        return Some([]);
      }
      var end := if offset + length < |payload| then offset + length else |payload|;
      return Some(payload[offset..end]);
    }

    method DeleteChunk(id: Bytes, fate: DeleteFate) returns (ok: bool)
      modifies this
      ensures (State(), ok) == Delete(old(State()), id, fate)
      ensures ok <==> ChunkPath(id) in old(files) && fate.Removed?
      ensures files == if ok then old(files) - {ChunkPath(id)} else old(files)
      ensures chunkSizes == if ChunkPath(id) in old(files) then old(chunkSizes) - {id}
                            else old(chunkSizes)
    {
      var path := ChunkPath(id);
      if path !in files {
        return false;
      }
      if id in chunkSizes {
        totalStored := Wrap64(totalStored - chunkSizes[id]);
        chunkSizes := chunkSizes - {id};
      }
      assert chunkSizes == old(chunkSizes) - {id};
      if fate.RemoveFailed? {
        return false;
      }
      files := files - {path};
      return true;
    }

    /** On a store in agreement with its directory, the statistics are the directory's own. */
    method Stats() returns (chunkCount: nat, totalBytes: nat)
      ensures chunkCount == |chunkSizes| && totalBytes == totalStored
      ensures Agrees(hash, State()) ==>
                && chunkCount == |ReadableIds(hash, files)|
                && totalBytes == Sum(Index(hash, files)) % U64_LIMIT
    {
      chunkCount, totalBytes := |chunkSizes|, totalStored;
      assert Index(hash, files).Keys == ReadableIds(hash, files);
    }
  }
}
